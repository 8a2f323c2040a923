/** How many device rounds a lone request takes: the schedule of `EpochSchedule`, over runs of scheduler and device. */
module LoneRuns {
  import opened Layout
  import opened Flow
  import opened EpochSpec
  import opened EpochRows
  import opened Bridge
  import opened Contract
  import opened RowLeases
  import opened Scheduler
  import opened SchedulerSafety
  import opened Sidecar
  import opened Lockstep
  import opened LockstepRuns
  import opened EpochSchedule

  /** The request is alone in the scheduler, running or waiting. */
  ghost predicate Lone(v: View, id: ReqId) {
    id in v.requests && ((v.running == [id] && v.waiting == []) || (v.running == [] && v.waiting == [id]))
  }

  /** A request that does not make its EOS uses every step of the epoch. */
  lemma FullEpoch(p: Plan, kv: KvImport, tiling: Tiling, q: PlanRequest, l: Loop)
    requires ValidPlan(p) && p.graphBatch == BATCH && q in p.requests && EndShape(Fed(ArgsOf(p, kv, tiling)), l)
    ensures ValidRequest(p, q) && (q.eos !in l.lanes[q.row].made ==> |l.lanes[q.row].made| == p.maxSteps)
  {
    var a := ArgsOf(p, kv, tiling);
    ArgsAt(p, kv, tiling);
    assert ValidRequest(p, q);
    assert Fed(a).rows[q.row] == FedRow(a, q.row);
    assert LaneEnd(Fed(a), l.calls, l.lanes[q.row].made, q.row);
    var made := l.lanes[q.row].made;
    if |made| < p.maxSteps { assert made[|made| - 1] in made; }
  }

  lemma DistinctOne(ids: seq<ReqId>, id: ReqId)
    requires Distinct(ids) && Elements(ids) == {id}
    ensures ids == [id]
  {
    assert id in Elements(ids) && id in ids;
    var first, last := ids[0], ids[|ids| - 1];
    assert first in Elements(ids) && last in Elements(ids);
  }

  lemma SomeIn(ids: seq<ReqId>)
    requires ids != []
    ensures exists id :: id in ids
  {
    assert ids[0] in ids;
  }

  lemma NoneIn(ids: seq<ReqId>)
    requires forall id :: id !in ids
    ensures ids == []
  {
    if ids != [] {
      SomeIn(ids);
      assert false;
    }
  }

  /** A round with one request is never isolated. */
  lemma LoneNotIsolated(v: View, maxRunning: int, id: ReqId)
    requires Consistent(v) && Lone(v, id)
    ensures !Isolated(v, maxRunning)
  {
  }

  lemma OneIn(ids: seq<ReqId>, id: ReqId)
    requires Distinct(ids) && forall x | x in ids :: x == id
    ensures ids == [] || ids == [id]
  {
    if ids != [] {
      assert id in Elements(ids) by { assert ids[0] in ids; }
      assert Elements(ids) == {id};
      DistinctOne(ids, id);
    }
  }

  lemma JoinedDistinct(a: seq<ReqId>, b: seq<ReqId>)
    requires Distinct(a + b)
    ensures Distinct(b)
  {
    forall i, j | 0 <= i < j < |b|
      ensures b[i] != b[j]
    {
      assert (a + b)[|a| + i] != (a + b)[|a| + j];
    }
  }

  lemma LoneChosen(v: View, choice: Choice, id: ReqId)
    requires Lone(v, id) && Lawful(choice, v.running, v.waiting, v.requests) && choice.ids != []
    ensures choice.ids == [id] && choice.admitted == if v.running == [id] then [] else [id]
  {
    JoinedDistinct(v.running, choice.admitted);
    OneIn(choice.admitted, id);
    OneIn(choice.ids, id);
    assert choice.ids[0] in choice.ids;
    if v.running == [id] { NoneIn(choice.admitted); }
  }

  lemma LoneMoved(v: View, choice: Choice, id: ReqId)
    requires Lone(v, id) && Counted(choice) && choice.admitted == if v.running == [id] then [] else [id]
    ensures var w := Rescheduled(v, false, choice); w.running == [id] && w.waiting == []
  {
    if v.running == [id] {
      assert [] + ([id] + []) == [id];
    } else {
      assert [] + ([] + [id]) == [id];
      NoneIn(Filter(v.waiting, Elements(choice.admitted), false));
    }
  }

  /** A round that schedules the request leaves it running, alone. */
  lemma LoneRunning(v: View, maxRunning: int, base: Base, id: ReqId)
    requires Consistent(v) && LawfulBase(v, maxRunning, base) && Lone(v, id) && Decision(v, maxRunning, base).ids != []
    ensures Decision(v, maxRunning, base).ids == [id]
    ensures var w := Rescheduled(v, false, Decision(v, maxRunning, base)); w.running == [id] && w.waiting == []
  {
    LoneNotIsolated(v, maxRunning, id);
    LoneChosen(v, Decision(v, maxRunning, base), id);
    LoneMoved(v, Decision(v, maxRunning, base), id);
  }

  /** What scheduling it amounts to. */
  lemma LoneSchedules(u: Setup, v: View, base: Base, blocks: Blocks, id: ReqId)
    requires Consistent(v) && LawfulBase(v, u.maxRunning, base) && Lone(v, id) && Decision(v, u.maxRunning, base).ids != []
    ensures var choice := Decision(v, u.maxRunning, base);
            var w := Rescheduled(v, false, choice);
            && choice.ids == [id] && w.running == [id] && w.waiting == []
            && w.requests.Keys == v.requests.Keys && w.requests[id] == Scheduled(v.requests[id], choice.counts[id])
            && var (m, outcome) := Planned(u.config, [id], w.requests, v.leases, blocks, OutputOf(choice));
               Schedules(u.config, u.maxRunning, v, base, blocks) == (w.(leases := m), Verdict(outcome, OutputOf(choice), m.owned, false))
  {
    LoneNotIsolated(v, u.maxRunning, id);
    LoneRunning(v, u.maxRunning, base, id);
    assert id in Decision(v, u.maxRunning, base).ids;
  }

  /** A round with a plan schedules exactly the lone request. */
  lemma LoneScheduled(u: Setup, v: View, base: Base, blocks: Blocks, id: ReqId)
    requires Consistent(v) && LawfulBase(v, u.maxRunning, base) && Lone(v, id)
    requires var scheduling := Schedules(u.config, u.maxRunning, v, base, blocks).1; scheduling.Accepted? && scheduling.plan.Some?
    ensures var (w, scheduling) := Schedules(u.config, u.maxRunning, v, base, blocks);
            scheduling.out.ids == [id] && w.running == [id] && w.waiting == []
  {
    SomeScheduled(u, v, base, blocks);
    LoneSchedules(u, v, base, blocks, id);
    var choice := Decision(v, u.maxRunning, base);
    var (m, outcome) := Planned(u.config, [id], Rescheduled(v, false, choice).requests, v.leases, blocks, OutputOf(choice));
    VerdictOutput(outcome, OutputOf(choice), m.owned);
  }

  lemma VerdictOutput(outcome: PlanOutcome, out: Output, owned: set<ReqId>)
    ensures var s := Verdict(outcome, out, owned, false); s.Accepted? ==> s.out == out
  {
  }

  lemma SomeScheduled(u: Setup, v: View, base: Base, blocks: Blocks)
    requires Consistent(v) && LawfulBase(v, u.maxRunning, base)
    requires var scheduling := Schedules(u.config, u.maxRunning, v, base, blocks).1; scheduling.Accepted? && scheduling.plan.Some?
    ensures Decision(v, u.maxRunning, base).ids != []
  {
    PlanChecked(u, v, base, blocks);
  }

  /** A round with a plan has passed the checks before it. */
  lemma PlanChecked(u: Setup, v: View, base: Base, blocks: Blocks)
    requires Consistent(v) && LawfulBase(v, u.maxRunning, base)
    requires var scheduling := Schedules(u.config, u.maxRunning, v, base, blocks).1; scheduling.Accepted? && scheduling.plan.Some?
    ensures var (w, scheduling) := Schedules(u.config, u.maxRunning, v, base, blocks);
            (forall x | x in scheduling.out.ids :: x in scheduling.out.counts) && PreChecks(w.running, scheduling.out)
  {
    RoundHolds(u, v, base, blocks);
  }

  /** A scheduler without running and waiting requests plans nothing. */
  lemma NothingPlanned(u: Setup, v: View, base: Base, blocks: Blocks)
    requires Consistent(v) && LawfulBase(v, u.maxRunning, base) && v.running == [] && v.waiting == []
    ensures var scheduling := Schedules(u.config, u.maxRunning, v, base, blocks).1; scheduling.Accepted? ==> scheduling.plan.None?
  {
    NoneIn(Decision(v, u.maxRunning, base).ids);
  }

  /** The tokens a device round makes for a request. */
  ghost function MadeIn(u: Setup, s: Sys, e: Event, id: ReqId): seq<int>
    requires e.DeviceRound? && Inv(s) && DeviceEnabled(u, s, e)
  {
    var (w, scheduling) := Schedules(u.config, u.maxRunning, s.v, e.base, e.blocks);
    var lanes := Epoch(s.d.(ready := true), Fed(ArgsOf(scheduling.plan.value, e.kv, e.tiling)), e.ctx).1.l.lanes;
    if id in w.leases.rows && w.leases.rows[id] < BATCH then lanes[w.leases.rows[id]].made else []
  }

  /** The lone request uses the steps of its schedule. */
  lemma LoneMade(u: Setup, w: View, blocks: Blocks, ids: seq<ReqId>, p: Plan, kv: KvImport, tiling: Tiling, l: Loop, id: ReqId)
    requires ValidConfig(u.config) && ids == [id] && AllLeased(w.requests, w.leases, ids) && Plannable(u.config, w.requests, w.leases, blocks, ids)
    requires p == PlanOf(u.config, w.requests, w.leases, blocks, ids) && ValidPlan(p) && p.graphBatch == BATCH
    requires EndShape(Fed(ArgsOf(p, kv, tiling)), l)
    ensures id in w.leases.rows && w.leases.rows[id] < BATCH && id in w.requests && Remaining(w.requests[id]) >= 1
    ensures p.maxSteps == LoneSteps(u.config, Remaining(w.requests[id]))
    ensures w.requests[id].eos !in l.lanes[w.leases.rows[id]].made ==> |l.lanes[w.leases.rows[id]].made| == p.maxSteps
  {
    EntryAt(u.config, w.requests, w.leases, blocks, ids, 0);
    assert Ready(u.config, w.requests[id], id in w.leases.owned, blocks(id));
    LoneRequest(u.config, w.requests, id);
    FullEpoch(p, kv, tiling, p.requests[0], l);
  }

  /** What a request has become with the given samples. */
  ghost predicate Became(q: Request, w: View, out: Output, sampled: map<ReqId, seq<int>>, id: ReqId, made: seq<int>)
    requires forall x | x in sampled :: x in out.counts
  {
    && id in w.requests && id in sampled && sampled[id] == made
    && var r := Appended(Accounted(w.requests, out, StepCounts(sampled)), sampled);
       id in r && r[id] == w.requests[id].(computed := r[id].computed, tokens := q.tokens + made)
  }

  lemma RequestBecomes(u: Setup, v: View, w: View, out: Output, blocks: Blocks, p: Plan, d: Device, d': Device, lanes: Lanes, id: ReqId)
    requires ValidConfig(u.config) && id in out.ids && RequestScheduled(v, w, out, id) && RequestOk(v.requests[id])
    requires (forall x | x in out.ids :: x in out.counts) && PreChecks(w.running, out)
    requires AllLeased(w.requests, w.leases, out.ids) && Plannable(u.config, w.requests, w.leases, blocks, out.ids)
    requires p == PlanOf(u.config, w.requests, w.leases, blocks, out.ids) && PlanAnswered(p, d, d', lanes)
    ensures Became(v.requests[id], w, out, DeviceSamples(w.leases, out.ids, lanes), id, lanes[w.leases.rows[id]].made)
    ensures 1 <= |lanes[w.leases.rows[id]].made| <= p.maxSteps
  {
    PlannedRequestKept(u, v, w, out, blocks, p, d, d', lanes, id);
    var sampled := DeviceSamples(w.leases, out.ids, lanes);
    AppendKeepsAll(Accounted(w.requests, out, StepCounts(sampled))[id], sampled[id]);
  }

  /** What the round needs to know of its plan, unpacked. */
  ghost predicate LonePlan(u: Setup, v: View, w: View, out: Output, blocks: Blocks, p: Plan, id: ReqId) {
    && ValidConfig(u.config) && out.ids == [id] && id in out.ids && RequestScheduled(v, w, out, id) && RequestOk(v.requests[id])
    && (forall x | x in out.ids :: x in out.counts) && PreChecks(w.running, out)
    && AllLeased(w.requests, w.leases, out.ids) && Plannable(u.config, w.requests, w.leases, blocks, out.ids)
    && p == PlanOf(u.config, w.requests, w.leases, blocks, out.ids) && ValidPlan(p) && p.graphBatch == BATCH
  }

  /** The tokens made follow the schedule. */
  ghost predicate OnSchedule(c: Config, q: Request, made: seq<int>) {
    && ValidConfig(c) && Remaining(q) >= 1
    && 1 <= |made| <= LoneSteps(c, Remaining(q)) && (q.eos !in made ==> |made| == LoneSteps(c, Remaining(q)))
  }

  /** The request becomes what its schedule says. */
  ghost predicate Advanced(u: Setup, v: View, w: View, out: Output, lanes: Lanes, id: ReqId) {
    && id in v.requests && (forall x | x in out.ids :: x in out.counts && x in w.leases.rows && w.leases.rows[x] < BATCH) && id in out.ids
    && Became(v.requests[id], w, out, DeviceSamples(w.leases, out.ids, lanes), id, lanes[w.leases.rows[id]].made)
    && OnSchedule(u.config, v.requests[id], lanes[w.leases.rows[id]].made)
  }

  lemma LoneAdvances(u: Setup, v: View, w: View, out: Output, blocks: Blocks, p: Plan, kv: KvImport, tiling: Tiling, ctx: Context,
                     d: Device, d': Device, end: Ending, id: ReqId)
    requires LonePlan(u, v, w, out, blocks, p, id) && Code(ArgsOf(p, kv, tiling)) == ACCEPTED
    requires Epoch(d, Fed(ArgsOf(p, kv, tiling)), ctx) == (d', end) && end.status == OK
    ensures Advanced(u, v, w, out, end.l.lanes, id)
  {
    EpochShape(d, Fed(ArgsOf(p, kv, tiling)), ctx, d', end);
    EpochAnswersPlan(p, kv, tiling, d, ctx, d', end);
    LaneAdvances(u, v, w, out, blocks, p, kv, tiling, d, d', end.l, id);
  }

  lemma LaneAdvances(u: Setup, v: View, w: View, out: Output, blocks: Blocks, p: Plan, kv: KvImport, tiling: Tiling,
                     d: Device, d': Device, l: Loop, id: ReqId)
    requires LonePlan(u, v, w, out, blocks, p, id) && EndShape(Fed(ArgsOf(p, kv, tiling)), l) && PlanAnswered(p, d, d', l.lanes)
    ensures Advanced(u, v, w, out, l.lanes, id)
  {
    RequestBecomes(u, v, w, out, blocks, p, d, d', l.lanes, id);
    LaneOnSchedule(u, v, w, out, blocks, p, kv, tiling, l, id);
  }

  lemma LaneOnSchedule(u: Setup, v: View, w: View, out: Output, blocks: Blocks, p: Plan, kv: KvImport, tiling: Tiling, l: Loop, id: ReqId)
    requires LonePlan(u, v, w, out, blocks, p, id) && EndShape(Fed(ArgsOf(p, kv, tiling)), l)
    requires id in w.leases.rows && w.leases.rows[id] < BATCH && 1 <= |l.lanes[w.leases.rows[id]].made| <= p.maxSteps
    ensures OnSchedule(u.config, v.requests[id], l.lanes[w.leases.rows[id]].made)
  {
    LoneMade(u, w, blocks, out.ids, p, kv, tiling, l, id);
    SameBudget(v, w, out, id);
  }

  lemma SameBudget(v: View, w: View, out: Output, id: ReqId)
    requires RequestScheduled(v, w, out, id)
    ensures Remaining(w.requests[id]) == Remaining(v.requests[id]) && w.requests[id].eos == v.requests[id].eos
  {
  }

  lemma {:induction false} AppendKeepsAll(q: Request, sampled: seq<int>)
    ensures Append(q, sampled) == q.(tokens := Append(q, sampled).tokens)
    decreases |sampled|
  {
    if sampled != [] { AppendKeepsAll(q.(tokens := q.tokens + [sampled[0]]), sampled[1..]); }
  }

  /** After its round the request goes on alone with the tokens it made, or is done; the device owns its id either way. */
  ghost predicate WentOn(v: View, v': View, id: ReqId, made: seq<int>)
    requires id in v.requests
  {
    && id in v'.leases.owned
    && if Remaining(v.requests[id]) == |made| then v'.running == [] && v'.waiting == [] && id !in v'.requests
       else
         && Lone(v', id)
         && var q, q' := v.requests[id], v'.requests[id];
            q' == q.(tokens := q.tokens + made, computed := q'.computed)
  }

  lemma FilterLone(id: ReqId, s: set<ReqId>)
    ensures Filter([id], s, false) == if id in s then [] else [id]
  {
    assert [id][..0] == [];
    assert Filter([], s, false) == [];
  }

  lemma ClosedLone(v: View, w: View, out: Output, sampled: map<ReqId, seq<int>>, owned: set<ReqId>, id: ReqId, made: seq<int>)
    requires w.running == [id] && w.waiting == [] && RequestScheduled(v, w, out, id) && id in owned && (forall x | x in sampled :: x in out.counts)
    requires id in sampled && sampled[id] == made && 1 <= |made| <= Remaining(v.requests[id])
    requires v.requests[id].eos !in sampled[id] && Became(v.requests[id], w, out, sampled, id, sampled[id])
    ensures WentOn(v, Closed(w.(leases := w.leases.(owned := owned)), Accounted(w.requests, out, StepCounts(sampled)), sampled), id, made)
  {
    var counted := Accounted(w.requests, out, StepCounts(sampled));
    var r := Appended(counted, sampled)[id];
    assert sampled[id][|sampled[id]| - 1] in sampled[id] && r.tokens[|r.tokens| - 1] == sampled[id][|sampled[id]| - 1];
    assert Remaining(r) == Remaining(v.requests[id]) - |made|;
    FilterLone(id, StoppedBy(counted, sampled));
  }

  lemma AdvancedClosed(u: Setup, v: View, w: View, out: Output, lanes: Lanes, owned: set<ReqId>, id: ReqId)
    requires Advanced(u, v, w, out, lanes, id) && RequestScheduled(v, w, out, id) && w.running == [id] && w.waiting == [] && id in owned
    requires v.requests[id].eos !in lanes[w.leases.rows[id]].made
    ensures var sampled := DeviceSamples(w.leases, out.ids, lanes);
            && |lanes[w.leases.rows[id]].made| == LoneSteps(u.config, Remaining(v.requests[id]))
            && WentOn(v, Closed(w.(leases := w.leases.(owned := owned)), Accounted(w.requests, out, StepCounts(sampled)), sampled), id,
                      lanes[w.leases.rows[id]].made)
  {
    ClosedLone(v, w, out, DeviceSamples(w.leases, out.ids, lanes), owned, id, lanes[w.leases.rows[id]].made);
  }

  /** A device round of a lone request that does not meet its EOS makes exactly the steps of the schedule. */
  lemma LoneRound(u: Setup, s: Sys, e: Event, id: ReqId)
    requires ValidConfig(u.config) && e.DeviceRound? && Inv(s) && DeviceEnabled(u, s, e) && Lone(s.v, id)
    requires s.v.requests[id].eos !in MadeIn(u, s, e, id)
    ensures |MadeIn(u, s, e, id)| == LoneSteps(u.config, Remaining(s.v.requests[id]))
    ensures WentOn(s.v, AfterDevice(u, s, e).v, id, MadeIn(u, s, e, id))
  {
    var (w, scheduling) := Schedules(u.config, u.maxRunning, s.v, e.base, e.blocks);
    RoundHolds(u, s.v, e.base, e.blocks);
    LoneScheduled(u, s.v, e.base, e.blocks, id);
    var d, p := s.d.(ready := true), scheduling.plan.value;
    var (d', end) := Epoch(d, Fed(ArgsOf(p, e.kv, e.tiling)), e.ctx);
    assert id in scheduling.out.ids && id in w.running && RequestScheduled(s.v, w, scheduling.out, id);
    LoneAdvances(u, s.v, w, scheduling.out, e.blocks, p, e.kv, e.tiling, e.ctx, d, d', end, id);
    AllOwned(u, w, e.blocks, scheduling.out.ids, p);
    AdvancedClosed(u, s.v, w, scheduling.out, end.l.lanes, w.leases.owned + HostIds(p.requests), id);
  }

  // ----- runs

  /** Device rounds only, in none of which the request makes its EOS. */
  ghost predicate Eosless(u: Setup, start: Sys, events: seq<Event>, id: ReqId)
    requires Run(u, start, events).Some?
  {
    events != [] ==>
      var before, e := events[..|events| - 1], events[|events| - 1];
      && Eosless(u, start, before, id) && e.DeviceRound?
      && var s := Run(u, start, before).value;
         id in s.v.requests ==> s.v.requests[id].eos !in MadeIn(u, s, e, id)
  }

  /** The request has `left` epochs to go. */
  ghost predicate ToGo(u: Setup, v: View, id: ReqId, left: nat)
    requires ValidConfig(u.config)
  {
    if left == 0 then v.running == [] && v.waiting == [] && id !in v.requests
    else Lone(v, id) && Remaining(v.requests[id]) >= 1 && Epochs(u.config, Remaining(v.requests[id])) == left
  }

  lemma OneFewer(u: Setup, v: View, v': View, id: ReqId, left: nat, made: seq<int>)
    requires ValidConfig(u.config) && left >= 1 && ToGo(u, v, id, left)
    requires WentOn(v, v', id, made) && |made| == LoneSteps(u.config, Remaining(v.requests[id]))
    ensures ToGo(u, v', id, left - 1)
  {
    EpochsNext(u.config, Remaining(v.requests[id]));
  }

  lemma EpochsNext(c: Config, remaining: nat)
    requires ValidConfig(c) && remaining >= 1
    ensures Epochs(c, remaining) == 1 + Epochs(c, remaining - LoneSteps(c, remaining))
    ensures Epochs(c, remaining - LoneSteps(c, remaining)) == 0 <==> remaining == LoneSteps(c, remaining)
  {
  }

  lemma RoundToGo(u: Setup, s: Sys, e: Event, id: ReqId, left: nat)
    requires ValidConfig(u.config) && e.DeviceRound? && Inv(s) && DeviceEnabled(u, s, e) && ToGo(u, s.v, id, left)
    requires id in s.v.requests ==> s.v.requests[id].eos !in MadeIn(u, s, e, id)
    ensures left >= 1 && ToGo(u, AfterDevice(u, s, e).v, id, left - 1)
  {
    if left == 0 { NothingPlanned(u, s.v, e.base, e.blocks); }
    LoneRound(u, s, e, id);
    OneFewer(u, s.v, AfterDevice(u, s, e).v, id, left, MadeIn(u, s, e, id));
  }

  lemma {:induction false} RunToGo(u: Setup, start: Sys, events: seq<Event>, id: ReqId, left: nat)
    requires ValidConfig(u.config) && ToGo(u, start.v, id, left) && Run(u, start, events).Some? && Eosless(u, start, events, id)
    ensures |events| <= left && ToGo(u, Run(u, start, events).value.v, id, left - |events|)
    decreases |events|
  {
    if events != [] {
      var before := events[..|events| - 1];
      RunToGo(u, start, before, id, left);
      RoundToGo(u, Run(u, start, before).value, events[|events| - 1], id, left - |before|);
    }
  }

  /** A lone request with R tokens to go that never meets its EOS is done after exactly R / M + popcount(R mod M) device
      rounds, for the configured maximum M: not before, and no further device round is possible. */
  lemma LoneRequestRounds(u: Setup, start: Sys, events: seq<Event>, id: ReqId)
    requires ValidConfig(u.config) && Inv(start) && Lone(start.v, id)
    requires Run(u, start, events).Some? && Eosless(u, start, events, id)
    ensures var r := Remaining(start.v.requests[id]);
            var rounds := r / u.config.maxSteps + Popcount(r % u.config.maxSteps);
            && r >= 1 && |events| <= rounds
            && (id in Run(u, start, events).value.v.requests <==> |events| < rounds)
  {
    var r := Remaining(start.v.requests[id]);
    assert RequestOk(start.v.requests[id]);
    LoneEpochs(u.config, r);
    RunToGo(u, start, events, id, Epochs(u.config, r));
  }
}
