/** Every event keeps the scheduler and the device in step, so every run does. */
module LockstepRuns {
  import opened Layout
  import opened Flow
  import opened EpochSpec
  import opened EpochRows
  import opened Bridge
  import opened Contract
  import opened RowLeases
  import opened Scheduler
  import opened SchedulerSafety
  import opened Sidecar
  import opened Lockstep
  import opened EpochSchedule

  // ----- one request

  lemma {:induction false} AppendAll(q: Request, made: seq<int>)
    requires made != [] && |made| <= Remaining(q) && q.eos !in made[..|made| - 1]
    ensures Append(q, made) == q.(tokens := q.tokens + made)
    decreases |made|
  {
    var q1 := q.(tokens := q.tokens + [made[0]]);
    if |made| > 1 {
      assert made[0] == made[..|made| - 1][0];
      assert made[1..][..|made| - 2] == made[..|made| - 1][1..];
      assert !Stops(q1);
      AppendAll(q1, made[1..]);
      assert q.tokens + [made[0]] + made[1..] == q.tokens + made;
    } else {
      assert made == [made[0]];
      assert made[1..] == [];
    }
  }

  lemma HostRequest(q: Request, count: int, sampled: seq<int>)
    requires RequestOk(q) && 1 <= count <= |q.tokens| - q.computed
    requires |sampled| == if q.computed + count == |q.tokens| then 1 else 0
    ensures sampled == [] ==> RequestOk(Scheduled(q, count))
    ensures sampled != [] && !Stops(Append(Scheduled(q, count), sampled)) ==> RequestOk(Append(Scheduled(q, count), sampled))
  {
    if sampled != [] {
      assert sampled[1..] == [];
      assert Append(Scheduled(q, count), sampled) == Scheduled(q, count).(tokens := q.tokens + [sampled[0]]);
    }
  }

  lemma DeviceRequest(q: Request, made: seq<int>)
    requires RequestOk(q) && q.computed == |q.tokens| - 1 && 1 <= |made| <= Remaining(q) && q.eos !in made[..|made| - 1]
    ensures var counted := Scheduled(q, 1).(computed := |q.tokens| + |made| - 1);
            && Append(counted, made) == counted.(tokens := q.tokens + made)
            && (!Stops(Append(counted, made)) ==> RequestOk(Append(counted, made)))
            && Made(Append(counted, made)) >= 1
  {
    AppendAll(Scheduled(q, 1).(computed := |q.tokens| + |made| - 1), made);
  }

  // ----- where the requests are

  /** `Consistent` but for the leases. */
  ghost predicate Placed(v: View) {
    && IsRunning(v.running, v.requests) && IsRunning(v.waiting, v.requests)
    && Distinct(v.running) && (forall id | id in v.waiting :: id !in v.running)
  }

  lemma {:induction false} FilterDistinct(ids: seq<ReqId>, s: set<ReqId>, keep: bool)
    requires Distinct(ids)
    ensures Distinct(Filter(ids, s, keep))
  {
    if ids != [] {
      var n := |ids| - 1;
      FilterDistinct(ids[..n], s, keep);
      assert ids[n] !in ids[..n];
    }
  }

  lemma JoinDistinct(a: seq<ReqId>, b: seq<ReqId>)
    requires Distinct(a) && Distinct(b) && forall id | id in a :: id !in b
    ensures Distinct(a + b)
  {
    forall i, j | 0 <= i < j < |a + b|
      ensures (a + b)[i] != (a + b)[j]
    {
      if i < |a| <= j { assert a[i] in a && b[j - |a|] in b; }
    }
  }

  lemma RescheduledPlaced(v: View, maxRunning: int, base: Base)
    requires Consistent(v) && LawfulBase(v, maxRunning, base)
    ensures Placed(Rescheduled(v, Isolated(v, maxRunning), Decision(v, maxRunning, base)))
    ensures var w := Rescheduled(v, Isolated(v, maxRunning), Decision(v, maxRunning, base));
            && w.leases == v.leases
            && (forall id | id in w.waiting :: id in v.waiting)
            && (forall id | id in Decision(v, maxRunning, base).ids :: id in w.running)
  {
    var isolated, choice := Isolated(v, maxRunning), Decision(v, maxRunning, base);
    var paused, visible := Paused(v, isolated), Visible(v, isolated);
    if isolated { FilterDistinct(v.running, v.leases.owned, true); }
    forall id | id in paused
      ensures id !in visible + choice.admitted
    {
      assert id in choice.admitted ==> id in v.waiting;
    }
    JoinDistinct(paused, visible + choice.admitted);
  }

  lemma ClosedPlaced(w: View, requests: Requests, sampled: map<ReqId, seq<int>>)
    requires Placed(w) && requests.Keys == w.requests.Keys && forall id | id in sampled :: id in w.running
    ensures Placed(Closed(w, requests, sampled))
  {
    FilterDistinct(w.running, StoppedBy(requests, sampled), false);
  }

  // ----- one round of scheduling

  /** What an accepted round tells about the view it leaves. */
  ghost predicate RoundFacts(u: Setup, v: View, w: View, scheduling: Scheduling, blocks: Blocks)
    requires scheduling.Accepted?
  {
    var out := scheduling.out;
    && Placed(w) && Safe(w.leases) && LeaseStep(v.leases, w.leases, out.ids) && w.requests.Keys == v.requests.Keys
    && (forall id | id in w.waiting :: id in v.waiting)
    && (forall id | id in out.ids :: id in w.running && id in out.counts)
    && (forall id | id in v.requests :: RequestScheduled(v, w, out, id))
    && (scheduling.plan.None? ==> forall id | id in out.ids :: id !in w.leases.owned)
    && (scheduling.plan.Some? ==>
          && ValidPlan(scheduling.plan.value) && scheduling.plan.value.graphBatch == BATCH
          && PreChecks(w.running, out) && w.leases.rows.Keys == Elements(out.ids) && w.leases.owned <= Elements(out.ids)
          && AllLeased(w.requests, w.leases, out.ids) && Plannable(u.config, w.requests, w.leases, blocks, out.ids)
          && scheduling.plan.value == PlanOf(u.config, w.requests, w.leases, blocks, out.ids))
  }

  ghost predicate RequestScheduled(v: View, w: View, out: Output, id: ReqId) {
    && id in v.requests && id in w.requests
    && if id in out.ids then
         && id in out.counts && 1 <= out.counts[id] <= |v.requests[id].tokens| - v.requests[id].computed
         && w.requests[id] == Scheduled(v.requests[id], out.counts[id])
       else w.requests[id] == v.requests[id]
  }

  lemma RoundHolds(u: Setup, v: View, base: Base, blocks: Blocks)
    requires Consistent(v) && LawfulBase(v, u.maxRunning, base) && Schedules(u.config, u.maxRunning, v, base, blocks).1.Accepted?
    ensures var (w, scheduling) := Schedules(u.config, u.maxRunning, v, base, blocks);
            RoundFacts(u, v, w, scheduling, blocks)
  {
    var (w, scheduling) := Schedules(u.config, u.maxRunning, v, base, blocks);
    var choice := Decision(v, u.maxRunning, base);
    var w0 := Rescheduled(v, Isolated(v, u.maxRunning), choice);
    RescheduledPlaced(v, u.maxRunning, base);
    RoundSafe(u.config, u.maxRunning, v, base, blocks);
    PlannedLeases(u.config, w0.running, w0.requests, v.leases, blocks, OutputOf(choice));
    forall id | id in v.requests
      ensures RequestScheduled(v, w, scheduling.out, id)
    {
    }
  }

  // ----- host rounds

  /** A request after a host round. */
  lemma HostRequestKept(l: Leases, d: Device, v: View, w: View, out: Output, sampled: map<ReqId, seq<int>>, id: ReqId)
    requires RequestScheduled(v, w, out, id) && RequestOk(v.requests[id]) && InStep(w.leases, d, id, v.requests[id])
    requires HostSamples(w, out, sampled) && (id in out.ids ==> id !in w.leases.owned)
    ensures var r := Appended(w.requests, sampled);
            id !in StoppedBy(w.requests, sampled) ==> RequestOk(r[id]) && InStep(w.leases, d, id, r[id])
  {
    if id in out.ids {
      assert id in Elements(out.ids);
      HostRequest(v.requests[id], out.counts[id], sampled[id]);
    } else {
      assert id !in sampled;
    }
  }

  lemma HostOwnsAll(p: Plan, requests: Requests, l: Leases, blocks: Blocks, ids: seq<ReqId>, id: ReqId)
    requires forall x | x in ids :: Enterable(requests, l, blocks, x)
    requires p.requests == Entries(requests, l, blocks, ids) && HostReplaySafe(p) && id in ids
    ensures id !in l.owned
  {
    var i :| 0 <= i < |ids| && ids[i] == id;
    assert p.requests[i] in p.requests;
  }

  /** No request the device owns runs on the host. */
  lemma HostRunsItsOwn(u: Setup, v: View, w: View, scheduling: Scheduling, blocks: Blocks)
    requires scheduling.Accepted? && RoundFacts(u, v, w, scheduling, blocks)
    requires scheduling.plan.Some? ==> HostReplaySafe(scheduling.plan.value)
    ensures forall id | id in scheduling.out.ids :: id !in w.leases.owned
  {
    if scheduling.plan.Some? {
      var ids := scheduling.out.ids;
      forall id | id in ids
        ensures Enterable(w.requests, w.leases, blocks, id)
      {
        assert Ready(u.config, w.requests[id], id in w.leases.owned, blocks(id));
        assert Fits(u.config, w.requests[id], EpochSteps(u.config, w.requests, ids), blocks(id));
      }
      forall id | id in ids
        ensures id !in w.leases.owned
      {
        HostOwnsAll(scheduling.plan.value, w.requests, w.leases, blocks, ids, id);
      }
    }
  }

  lemma HostRoundKeeps(u: Setup, s: Sys, e: Event)
    requires e.HostRound? && Inv(s) && HostEnabled(u, s, e)
    ensures Inv(AfterHost(u, s, e))
  {
    var (w, scheduling) := Schedules(u.config, u.maxRunning, s.v, e.base, e.blocks);
    RoundHolds(u, s.v, e.base, e.blocks);
    HostRunsItsOwn(u, s.v, w, scheduling, e.blocks);
    LeasesKept(s.v.leases, w.leases, scheduling.out.ids, s.d);
    ClosedPlaced(w, w.requests, e.sampled);
    forall id | id in s.v.requests
      ensures var r := Appended(w.requests, e.sampled);
              id !in StoppedBy(w.requests, e.sampled) ==> RequestOk(r[id]) && InStep(w.leases, s.d, id, r[id])
    {
      assert RequestScheduled(s.v, w, scheduling.out, id);
      InStepKept(s.v.leases, w.leases, scheduling.out.ids, s.d, id, s.v.requests[id]);
      HostRequestKept(w.leases, s.d, s.v, w, scheduling.out, e.sampled, id);
    }
    LingersKept(s.v.leases, w.leases, scheduling.out.ids, s.d);
  }

  // ----- device rounds

  /** A plan's request, its row, and what the device answered. */
  ghost predicate Answered(p: Plan, w: View, id: ReqId, d: Device, d': Device, made: seq<int>) {
    && id in w.requests && id in w.leases.rows && id in w.leases.generations && w.leases.rows[id] < BATCH
    && var q, row := w.requests[id], w.leases.rows[id];
       && q.tokens != [] && 1 <= |made| <= p.maxSteps && q.eos !in made[..|made| - 1]
       && d'.rows[row] == Meta(w.leases.generations[id], made[|made| - 1], |q.tokens| - 1 + |made|, |q.tokens| + |made|, 1)
  }

  lemma EntryAt(c: Config, requests: Requests, l: Leases, blocks: Blocks, ids: seq<ReqId>, i: nat)
    requires i < |ids| && AllLeased(requests, l, ids) && Plannable(c, requests, l, blocks, ids)
    ensures ids[i] in requests && Enterable(requests, l, blocks, ids[i]) && requests[ids[i]].computed == |requests[ids[i]].tokens|
    ensures var p := PlanOf(c, requests, l, blocks, ids);
            |p.requests| == |ids| && p.requests[i] == EntryOf(l, ids[i], requests[ids[i]], blocks(ids[i])) && p.requests[i] in p.requests
  {
    assert Ready(c, requests[ids[i]], ids[i] in l.owned, blocks(ids[i]));
    assert Fits(c, requests[ids[i]], EpochSteps(c, requests, ids), blocks(ids[i]));
  }

  /** The row of a plan's request after a successful epoch. */
  ghost predicate RowAnswered(p: Plan, q: PlanRequest, m': Meta, made: seq<int>) {
    && 1 <= |made| <= p.maxSteps && q.eos !in made[..|made| - 1]
    && m' == Meta(q.generation, made[|made| - 1], q.position + |made|, q.position + |made| + 1, 1)
  }

  lemma EpochAnswers(p: Plan, kv: KvImport, tiling: Tiling, q: PlanRequest, m: Meta, l: Loop, m': Meta)
    requires ValidPlan(p) && p.graphBatch == BATCH && q in p.requests && Code(ArgsOf(p, kv, tiling)) == ACCEPTED
    requires EndShape(Fed(ArgsOf(p, kv, tiling)), l)
    requires ValidRequest(p, q) && RowMoved(m, Fed(ArgsOf(p, kv, tiling)).rows[q.row], m', l.lanes[q.row].made)
    ensures RowAnswered(p, q, m', l.lanes[q.row].made)
  {
    var a := ArgsOf(p, kv, tiling);
    ArgsAt(p, kv, tiling);
    assert Fed(a).rows[q.row] == FedRow(a, q.row);
    assert LaneEnd(Fed(a), l.calls, l.lanes[q.row].made, q.row);
  }

  /** A row without a request keeps its metadata. */
  lemma RowUnasked(p: Plan, kv: KvImport, tiling: Tiling, r: nat, m: Meta, made: seq<int>, m': Meta)
    requires ValidPlan(p) && p.graphBatch == BATCH && r < BATCH && !exists q :: q in p.requests && q.row == r
    requires RowMoved(m, Fed(ArgsOf(p, kv, tiling)).rows[r], m', made)
    ensures m' == m
  {
    var a := ArgsOf(p, kv, tiling);
    ArgsAt(p, kv, tiling);
    assert Fed(a).rows[r] == FedRow(a, r);
  }

  lemma EntryAnswered(w: View, blocks: Blocks, p: Plan, d: Device, d': Device, id: ReqId, made: seq<int>)
    requires Enterable(w.requests, w.leases, blocks, id) && w.requests[id].computed == |w.requests[id].tokens| && w.leases.rows[id] < BATCH
    requires RowAnswered(p, EntryOf(w.leases, id, w.requests[id], blocks(id)), d'.rows[w.leases.rows[id]], made)
    ensures Answered(p, w, id, d, d', made)
  {
  }

  lemma IdAnswered(u: Setup, w: View, blocks: Blocks, ids: seq<ReqId>, p: Plan, d: Device, d': Device, lanes: Lanes, id: ReqId)
    requires AllLeased(w.requests, w.leases, ids) && Plannable(u.config, w.requests, w.leases, blocks, ids)
    requires p == PlanOf(u.config, w.requests, w.leases, blocks, ids)
    requires forall q | q in p.requests :: ValidRequest(p, q) && q.row < BATCH && RowAnswered(p, q, d'.rows[q.row], lanes[q.row].made)
    requires id in ids
    ensures id in w.requests && id in w.leases.rows && w.leases.rows[id] < BATCH && w.requests[id].computed == |w.requests[id].tokens|
    ensures Answered(p, w, id, d, d', lanes[w.leases.rows[id]].made)
  {
    var i: nat :| i < |ids| && ids[i] == id;
    EntryAt(u.config, w.requests, w.leases, blocks, ids, i);
    var q := p.requests[i];
    assert q.row == w.leases.rows[id] && RowAnswered(p, q, d'.rows[q.row], lanes[q.row].made);
    EntryAnswered(w, blocks, p, d, d', id, lanes[q.row].made);
  }

  /** After its answer a request is again in order, and the device remembers it as the scheduler does. */
  lemma AnsweredRequest(v: View, w: View, out: Output, p: Plan, d: Device, d': Device, made: seq<int>, id: ReqId,
                        sampled: map<ReqId, seq<int>>)
    requires RequestScheduled(v, w, out, id) && RequestOk(v.requests[id]) && id in out.ids && out.counts[id] == 1
    requires w.requests[id].computed == |w.requests[id].tokens| && Answered(p, w, id, d, d', made)
    requires p.maxSteps <= Remaining(v.requests[id]) && id in sampled && sampled[id] == made
    requires forall x | x in sampled :: x in out.counts
    ensures var counted := Accounted(w.requests, out, StepCounts(sampled));
            var r := Appended(counted, sampled);
            && ExtraOk(w.requests, out, StepCounts(sampled), sampled, id)
            && r[id].tokens == v.requests[id].tokens + made && Made(r[id]) >= 1
            && d'.rows[w.leases.rows[id]] == MetaOf(w.leases.generations[id], r[id])
            && (id !in StoppedBy(counted, sampled) ==> RequestOk(r[id]))
  {
    DeviceRequest(v.requests[id], made);
  }

  /** All the plan's requests, and the rows nobody has, after a successful epoch. */
  ghost predicate PlanAnswered(p: Plan, d: Device, d': Device, lanes: Lanes) {
    && (forall q | q in p.requests :: ValidRequest(p, q) && q.row < BATCH && RowAnswered(p, q, d'.rows[q.row], lanes[q.row].made))
    && (forall r: nat | r < BATCH :: (exists q :: q in p.requests && q.row == r) || d'.rows[r] == d.rows[r])
  }

  lemma EpochAnswersPlan(p: Plan, kv: KvImport, tiling: Tiling, d: Device, ctx: Context, d': Device, end: Ending)
    requires ValidPlan(p) && p.graphBatch == BATCH && Code(ArgsOf(p, kv, tiling)) == ACCEPTED
    requires Epoch(d, Fed(ArgsOf(p, kv, tiling)), ctx) == (d', end) && end.status == OK
    ensures PlanAnswered(p, d, d', end.l.lanes)
  {
    EpochShape(d, Fed(ArgsOf(p, kv, tiling)), ctx, d', end);
    forall q | q in p.requests
      ensures ValidRequest(p, q) && q.row < BATCH && RowAnswered(p, q, d'.rows[q.row], end.l.lanes[q.row].made)
    {
      assert ValidRequest(p, q);
      EpochAnswers(p, kv, tiling, q, d.rows[q.row], end.l, d'.rows[q.row]);
    }
    forall r: nat | r < BATCH && !exists q :: q in p.requests && q.row == r
      ensures d'.rows[r] == d.rows[r]
    {
      RowUnasked(p, kv, tiling, r, d.rows[r], end.l.lanes[r].made, d'.rows[r]);
    }
  }

  lemma OwnedOrHanded(u: Setup, w: View, blocks: Blocks, ids: seq<ReqId>, p: Plan, i: nat)
    requires AllLeased(w.requests, w.leases, ids) && Plannable(u.config, w.requests, w.leases, blocks, ids)
    requires p == PlanOf(u.config, w.requests, w.leases, blocks, ids) && i < |ids|
    ensures |p.requests| == |ids| && p.requests[i].id == ids[i]
    ensures ids[i] in w.leases.owned + HostIds(p.requests)
  {
    EntryAt(u.config, w.requests, w.leases, blocks, ids, i);
  }

  lemma AllOwned(u: Setup, w: View, blocks: Blocks, ids: seq<ReqId>, p: Plan)
    requires AllLeased(w.requests, w.leases, ids) && Plannable(u.config, w.requests, w.leases, blocks, ids)
    requires p == PlanOf(u.config, w.requests, w.leases, blocks, ids) && w.leases.owned <= Elements(ids)
    ensures w.leases.owned + HostIds(p.requests) == Elements(ids)
  {
    forall i: nat | i < |ids|
      ensures |p.requests| == |ids| && p.requests[i].id == ids[i] && ids[i] in w.leases.owned + HostIds(p.requests)
    {
      OwnedOrHanded(u, w, blocks, ids, p, i);
    }
    SameIds(p.requests, ids);
  }

  lemma SameIds(requests: seq<PlanRequest>, ids: seq<ReqId>)
    requires ids != [] ==> |requests| == |ids|
    requires ids == [] ==> requests == []
    requires forall i: nat | i < |ids| :: requests[i].id == ids[i]
    ensures HostIds(requests) <= Elements(ids)
  {
    forall id | id in HostIds(requests)
      ensures id in ids
    {
      var q :| q in requests && q.owner.HostOwned? && q.id == id;
      var i: nat :| i < |requests| && requests[i] == q;
      assert ids[i] == id;
    }
  }

  lemma PlanGeneration(u: Setup, w: View, blocks: Blocks, ids: seq<ReqId>, p: Plan, q: PlanRequest)
    requires Safe(w.leases) && AllLeased(w.requests, w.leases, ids) && Plannable(u.config, w.requests, w.leases, blocks, ids)
    requires p == PlanOf(u.config, w.requests, w.leases, blocks, ids) && q in p.requests
    ensures q.generation < w.leases.next
  {
    var i: nat :| i < |p.requests| && p.requests[i] == q;
    EntryAt(u.config, w.requests, w.leases, blocks, ids, i);
    assert LeaseOk(w.leases, ids[i]);
  }

  /** Every generation on the device is again below the counter. */
  lemma AnsweredBelow(l: Leases, m: Leases, p: Plan, d: Device, d': Device, lanes: Lanes)
    requires PlanAnswered(p, d, d', lanes) && DeviceBelow(l, d) && l.next <= m.next
    requires forall q | q in p.requests :: q.generation < m.next
    ensures DeviceBelow(m, d')
  {
    forall r: nat | r < BATCH
      ensures d'.rows[r].generation < m.next || d'.rows[r].generation == WARMUP_GENERATION
    {
      if q :| q in p.requests && q.row == r {
        assert RowAnswered(p, q, d'.rows[r], lanes[r].made);
      }
    }
  }

  /** A request of the plan after the round. */
  lemma PlannedRequestKept(u: Setup, v: View, w: View, out: Output, blocks: Blocks, p: Plan, d: Device, d': Device, lanes: Lanes, id: ReqId)
    requires ValidConfig(u.config) && id in out.ids && RequestScheduled(v, w, out, id) && RequestOk(v.requests[id])
    requires (forall x | x in out.ids :: x in out.counts) && PreChecks(w.running, out)
    requires AllLeased(w.requests, w.leases, out.ids) && Plannable(u.config, w.requests, w.leases, blocks, out.ids)
    requires p == PlanOf(u.config, w.requests, w.leases, blocks, out.ids) && PlanAnswered(p, d, d', lanes)
    ensures var sampled := DeviceSamples(w.leases, out.ids, lanes);
            var counted := Accounted(w.requests, out, StepCounts(sampled));
            var r := Appended(counted, sampled);
            && ExtraOk(w.requests, out, StepCounts(sampled), sampled, id)
            && 1 <= |sampled[id]| <= p.maxSteps && r[id].tokens == v.requests[id].tokens + sampled[id] && Made(r[id]) >= 1
            && d'.rows[w.leases.rows[id]] == MetaOf(w.leases.generations[id], r[id])
            && (id !in StoppedBy(counted, sampled) ==> RequestOk(r[id]))
  {
    IdAnswered(u, w, blocks, out.ids, p, d, d', lanes, id);
    forall x | x in out.ids
      ensures x in w.requests && Remaining(w.requests[x]) >= 1
    {
      assert Ready(u.config, w.requests[x], x in w.leases.owned, blocks(x));
    }
    StepsWithinBudgets(u.config, w.requests, out.ids);
    AnsweredRequest(v, w, out, p, d, d', lanes[w.leases.rows[id]].made, id, DeviceSamples(w.leases, out.ids, lanes));
  }

  ghost function AfterDevice(u: Setup, s: Sys, e: Event): Sys
    requires e.DeviceRound? && Inv(s) && DeviceEnabled(u, s, e)
  {
    RoundHolds(u, s.v, e.base, e.blocks);
    var (w, scheduling) := Schedules(u.config, u.maxRunning, s.v, e.base, e.blocks);
    var p := scheduling.plan.value;
    var (d', end) := Epoch(s.d.(ready := true), Fed(ArgsOf(p, e.kv, e.tiling)), e.ctx);
    Sys(DeviceClosed(w, scheduling.out, p, DeviceSamples(w.leases, scheduling.out.ids, end.l.lanes)), d')
  }

  lemma SafeOwners(l: Leases, owned: set<ReqId>)
    requires Safe(l) && owned <= l.rows.Keys
    ensures Safe(l.(owned := owned))
  {
    var m := l.(owned := owned);
    forall id | id in m.rows
      ensures LeaseOk(m, id)
    {
      assert LeaseOk(l, id);
    }
    forall a, b | a in m.rows && b in m.rows && a != b
      ensures Apart(m, a, b)
    {
      assert Apart(l, a, b);
    }
  }

  /** A request and its row are in order after the round. */
  ghost predicate Settled(l: Leases, d: Device, q: Request, id: ReqId, stopped: bool) {
    && id in l.rows && id in l.generations && l.rows[id] < BATCH && |q.tokens| >= 2 && Made(q) >= 1
    && d.rows[l.rows[id]] == MetaOf(l.generations[id], q)
    && (!stopped ==> RequestOk(q))
  }

  /** The invariant after a device round, from what the round has done to every request. */
  lemma DeviceInv(s: Sys, w: View, d': Device, ids: seq<ReqId>, owned: set<ReqId>, counted: Requests, sampled: map<ReqId, seq<int>>)
    requires Inv(s) && Placed(w) && Safe(w.leases) && counted.Keys == w.requests.Keys == s.v.requests.Keys
    requires sampled.Keys == Elements(ids) == w.leases.rows.Keys == owned && forall id | id in ids :: id in w.running
    requires DeviceBelow(w.leases, d')
    requires forall id | id in s.v.requests && id !in ids :: counted[id] == s.v.requests[id]
    requires forall id | id in ids ::
               id in counted && Settled(w.leases, d', Appended(counted, sampled)[id], id, id in StoppedBy(counted, sampled))
    ensures Inv(Sys(Closed(w.(leases := w.leases.(owned := owned)), counted, sampled), d'))
  {
    ClosedPlaced(w.(leases := w.leases.(owned := owned)), counted, sampled);
    SafeOwners(w.leases, owned);
    var v' := Closed(w.(leases := w.leases.(owned := owned)), counted, sampled);
    forall id | id in v'.requests
      ensures RequestOk(v'.requests[id]) && InStep(v'.leases, d', id, v'.requests[id])
    {
      if id in ids {
        assert Settled(w.leases, d', Appended(counted, sampled)[id], id, id in StoppedBy(counted, sampled));
      } else {
        assert id !in Elements(ids) && v'.requests[id] == s.v.requests[id];
      }
    }
    assert forall id :: FreshLease(v'.leases, d', id);
    forall id | id in owned
      ensures Lingers(v'.leases, d', id)
    {
      assert id in ids && Settled(w.leases, d', Appended(counted, sampled)[id], id, id in StoppedBy(counted, sampled));
    }
  }

  lemma DeviceRoundKeeps(u: Setup, s: Sys, e: Event)
    requires ValidConfig(u.config) && e.DeviceRound? && Inv(s) && DeviceEnabled(u, s, e)
    ensures Inv(AfterDevice(u, s, e))
  {
    var (w, scheduling) := Schedules(u.config, u.maxRunning, s.v, e.base, e.blocks);
    RoundHolds(u, s.v, e.base, e.blocks);
    var out, p := scheduling.out, scheduling.plan.value;
    var d := s.d.(ready := true);
    var (d', end) := Epoch(d, Fed(ArgsOf(p, e.kv, e.tiling)), e.ctx);
    EpochAnswersPlan(p, e.kv, e.tiling, d, e.ctx, d', end);
    AllOwned(u, w, e.blocks, out.ids, p);
    forall q | q in p.requests
      ensures q.generation < w.leases.next
    {
      PlanGeneration(u, w, e.blocks, out.ids, p, q);
    }
    AnsweredBelow(s.v.leases, w.leases, p, d, d', end.l.lanes);
    var sampled := DeviceSamples(w.leases, out.ids, end.l.lanes);
    var counted := Accounted(w.requests, out, StepCounts(sampled));
    forall id | id in out.ids
      ensures id in counted && Settled(w.leases, d', Appended(counted, sampled)[id], id, id in StoppedBy(counted, sampled))
    {
      assert id in Elements(out.ids) && LeaseOk(w.leases, id);
      assert id in w.running && RequestScheduled(s.v, w, out, id);
      PlannedRequestKept(u, s.v, w, out, e.blocks, p, d, d', end.l.lanes, id);
    }
    assert forall id | id in s.v.requests :: RequestScheduled(s.v, w, out, id);
    DeviceInv(s, w, d', out.ids, w.leases.owned + HostIds(p.requests), counted, sampled);
  }

  // ----- all runs

  ghost function After(u: Setup, s: Sys, e: Event): Sys
    requires Inv(s) && Enabled(u, s, e)
  {
    match e
    case Arrive(id, q) => s.(v := s.v.(waiting := s.v.waiting + [id], requests := s.v.requests[id := q]))
    case Abort(id) =>
      s.(v := s.v.(running := Without(s.v.running, id), waiting := Without(s.v.waiting, id), requests := s.v.requests - {id}))
    case HostRound(_, _, _) => AfterHost(u, s, e)
    case DeviceRound(_, _, _, _, _) => AfterDevice(u, s, e)
  }

  lemma ArrivalKeeps(u: Setup, s: Sys, e: Event)
    requires Inv(s) && Enabled(u, s, e) && e.Arrive?
    ensures Inv(After(u, s, e))
  {
    var s' := After(u, s, e);
    forall id | id in s'.v.requests
      ensures RequestOk(s'.v.requests[id]) && InStep(s'.v.leases, s'.d, id, s'.v.requests[id])
    {
      if id != e.id { assert RequestOk(s.v.requests[id]); }
    }
  }

  lemma AbortKeeps(u: Setup, s: Sys, e: Event)
    requires Inv(s) && Enabled(u, s, e) && e.Abort?
    ensures Inv(After(u, s, e))
  {
    FilterDistinct(s.v.running, {e.id}, false);
    var s' := After(u, s, e);
    forall id | id in s'.v.requests
      ensures RequestOk(s'.v.requests[id]) && InStep(s'.v.leases, s'.d, id, s'.v.requests[id])
    {
      assert RequestOk(s.v.requests[id]) && InStep(s.v.leases, s.d, id, s.v.requests[id]);
    }
  }

  /** Every event keeps scheduler and device in step. */
  lemma EventKeeps(u: Setup, s: Sys, e: Event)
    requires ValidConfig(u.config) && Inv(s) && Enabled(u, s, e)
    ensures Inv(After(u, s, e))
  {
    match e
    case Arrive(_, _) => ArrivalKeeps(u, s, e);
    case Abort(_) => AbortKeeps(u, s, e);
    case HostRound(_, _, _) => HostRoundKeeps(u, s, e);
    case DeviceRound(_, _, _, _, _) => DeviceRoundKeeps(u, s, e);
  }

  /** Nothing scheduled yet, and a device that has done nothing, or only its warm-up. */
  ghost predicate Fresh(s: Sys) {
    && s.v == View([], [], map[], NO_LEASES)
    && forall r: nat | r < BATCH :: s.d.rows[r].generation == 0 || s.d.rows[r].generation == WARMUP_GENERATION
  }

  /** The state after a run, if the run is possible. */
  ghost function Run(u: Setup, start: Sys, events: seq<Event>): Option<Sys>
  {
    if events == [] then Some(start)
    else
      var before := Run(u, start, events[..|events| - 1]);
      var e := events[|events| - 1];
      if before.Some? && Inv(before.value) && Enabled(u, before.value, e) then Some(After(u, before.value, e)) else None
  }

  lemma {:induction false} RunsStay(u: Setup, start: Sys, events: seq<Event>)
    requires ValidConfig(u.config) && Inv(start) && Run(u, start, events).Some?
    ensures Inv(Run(u, start, events).value)
    decreases |events|
  {
    if events != [] {
      var before := events[..|events| - 1];
      RunsStay(u, start, before);
      EventKeeps(u, Run(u, start, before).value, events[|events| - 1]);
    }
  }

  /** In every reachable state the scheduler and the device are in step. */
  lemma RunsKeepStep(u: Setup, start: Sys, events: seq<Event>)
    requires ValidConfig(u.config) && Fresh(start) && Run(u, start, events).Some?
    ensures Inv(Run(u, start, events).value)
  {
    RunsStay(u, start, events);
  }

  /** Scheduling a request does not move it out of step. */
  lemma ScheduledInStep(l: Leases, m: Leases, d: Device, v: View, w: View, out: Output, id: ReqId)
    requires LeaseStep(l, m, out.ids) && RequestScheduled(v, w, out, id) && InStep(l, d, id, v.requests[id])
    ensures InStep(m, d, id, w.requests[id])
  {
    InStepKept(l, m, out.ids, d, id, v.requests[id]);
    assert w.requests[id].tokens == v.requests[id].tokens && w.requests[id].prompt == v.requests[id].prompt;
  }

  lemma EntryOffered(c: Config, requests: Requests, l: Leases, d: Device, blocks: Blocks, ids: seq<ReqId>, p: Plan, q: PlanRequest)
    requires AllLeased(requests, l, ids) && Plannable(c, requests, l, blocks, ids) && p == PlanOf(c, requests, l, blocks, ids)
    requires q in p.requests && AllLinger(l, d)
    requires forall id | id in ids :: 1 <= requests[id].prompt <= |requests[id].tokens| && InStep(l, d, id, requests[id]) && FreshLease(l, d, id)
    ensures KnownToDevice(d, p, q)
  {
    var i: nat :| i < |p.requests| && p.requests[i] == q;
    EntryAt(c, requests, l, blocks, ids, i);
    assert InStep(l, d, ids[i], requests[ids[i]]) && Ready(c, requests[ids[i]], ids[i] in l.owned, blocks(ids[i]));
    EntryKnown(requests, l, d, blocks, p, ids[i]);
  }

  /** The plan offered in a state, seen from the device. */
  lemma OfferedPlan(u: Setup, s: Sys, base: Base, blocks: Blocks)
    requires Inv(s) && LawfulBase(s.v, u.maxRunning, base)
    requires var scheduling := Schedules(u.config, u.maxRunning, s.v, base, blocks).1; scheduling.Accepted? && scheduling.plan.Some?
    ensures var p := Schedules(u.config, u.maxRunning, s.v, base, blocks).1.plan.value;
            && ValidPlan(p) && p.graphBatch == BATCH && forall q | q in p.requests :: KnownToDevice(s.d, p, q)
  {
    var (w, scheduling) := Schedules(u.config, u.maxRunning, s.v, base, blocks);
    RoundHolds(u, s.v, base, blocks);
    var ids, p := scheduling.out.ids, scheduling.plan.value;
    LeasesKept(s.v.leases, w.leases, ids, s.d);
    LingersKept(s.v.leases, w.leases, ids, s.d);
    forall id | id in ids
      ensures id in w.requests && 1 <= w.requests[id].prompt <= |w.requests[id].tokens|
      ensures InStep(w.leases, s.d, id, w.requests[id]) && FreshLease(w.leases, s.d, id)
    {
      assert id in w.running && id in s.v.requests && RequestOk(s.v.requests[id]);
      ScheduledInStep(s.v.leases, w.leases, s.d, s.v, w, scheduling.out, id);
    }
    forall q | q in p.requests
      ensures KnownToDevice(s.d, p, q)
    {
      EntryOffered(u.config, w.requests, w.leases, s.d, blocks, ids, p, q);
    }
  }

  /** A call is refused with status 212 exactly when its continuity check fails. */
  lemma ContinuityStatus(d: Device, a: Args, ctx: Context)
    requires Code(a) == ACCEPTED && ImportMatches(a)
    ensures Epoch(d, Fed(a), ctx).1.status == RESIDENT_CONTINUITY <==> !Continuity(Import(d, Fed(a)).0, Fed(a))
  {
    FedValid(a);
    ImportEffect(d, Fed(a));
  }

  lemma OfferedPositions(u: Setup, s: Sys, base: Base, blocks: Blocks)
    requires Inv(s) && LawfulBase(s.v, u.maxRunning, base)
    requires var scheduling := Schedules(u.config, u.maxRunning, s.v, base, blocks).1; scheduling.Accepted? && scheduling.plan.Some?
    ensures forall q | q in Schedules(u.config, u.maxRunning, s.v, base, blocks).1.plan.value.requests :: 0 <= q.position
  {
    var (w, scheduling) := Schedules(u.config, u.maxRunning, s.v, base, blocks);
    RoundHolds(u, s.v, base, blocks);
    var ids, p := scheduling.out.ids, scheduling.plan.value;
    forall q | q in p.requests
      ensures 0 <= q.position
    {
      var i: nat :| i < |p.requests| && p.requests[i] == q;
      EntryAt(u.config, w.requests, w.leases, blocks, ids, i);
    }
  }

  /** Lockstep: in every reachable state, a plan sent to the device is refused with status 212 if and only if one of its
      requests is refused. One the device owns is, exactly if it came back under the id of an earlier request. One of the
      host's is, unless it has the generation of the warm-up, exactly if it is stranded: a one-token prompt that has
      taken a step on the host. */
  lemma PlansContinue(u: Setup, start: Sys, events: seq<Event>, base: Base, blocks: Blocks, kv: KvImport, tiling: Tiling, ctx: Context)
    requires ValidConfig(u.config) && Fresh(start) && Run(u, start, events).Some?
    requires var s := Run(u, start, events).value; Inv(s) && LawfulBase(s.v, u.maxRunning, base)
    requires var s := Run(u, start, events).value;
             var scheduling := Schedules(u.config, u.maxRunning, s.v, base, blocks).1;
             && scheduling.Accepted? && scheduling.plan.Some?
             && var p := scheduling.plan.value;
                ValidPlan(p) && ImportFor(p, kv) && Code(ArgsOf(p, kv, tiling)) == ACCEPTED && ImportMatches(ArgsOf(p, kv, tiling))
    ensures var s := Run(u, start, events).value;
            var p := Schedules(u.config, u.maxRunning, s.v, base, blocks).1.plan.value;
            && (forall q | q in p.requests ::
                  && 0 <= q.row < BATCH
                  && (!FromWarmup(q) ==> (TurnedDown(s.d, q) <==> Stranded(q) || Returned(q))))
            && (Epoch(s.d.(ready := true), Fed(ArgsOf(p, kv, tiling)), ctx).1.status == RESIDENT_CONTINUITY
                <==> exists q :: q in p.requests && TurnedDown(s.d, q))
  {
    var s := Run(u, start, events).value;
    var p := Schedules(u.config, u.maxRunning, s.v, base, blocks).1.plan.value;
    OfferedPlan(u, s, base, blocks);
    OfferedPositions(u, s, base, blocks);
    PlanRefused(s.d, p, kv, tiling, ctx);
  }

  /** A plan the device knows is refused exactly if one of its requests is. */
  lemma PlanRefused(d: Device, p: Plan, kv: KvImport, tiling: Tiling, ctx: Context)
    requires ValidPlan(p) && p.graphBatch == BATCH && ImportFor(p, kv) && Code(ArgsOf(p, kv, tiling)) == ACCEPTED
    requires ImportMatches(ArgsOf(p, kv, tiling)) && forall q | q in p.requests :: KnownToDevice(d, p, q) && 0 <= q.position
    ensures forall q | q in p.requests ::
              && 0 <= q.row < BATCH
              && (!FromWarmup(q) ==> (TurnedDown(d, q) <==> Stranded(q) || Returned(q)))
    ensures Epoch(d.(ready := true), Fed(ArgsOf(p, kv, tiling)), ctx).1.status == RESIDENT_CONTINUITY
            <==> exists q :: q in p.requests && TurnedDown(d, q)
  {
    var d0 := d.(ready := true);
    forall q | q in p.requests
      ensures ValidRequest(p, q) && (!Taken(d0, q) <==> TurnedDown(d, q))
      ensures !FromWarmup(q) ==> (TurnedDown(d, q) <==> Stranded(q) || Returned(q))
    {
      assert ValidRequest(p, q) && KnownToDevice(d, p, q);
      TakenOrTurnedDown(d, p, q);
    }
    ContinuityOfPlan(d0, p, kv, tiling);
    ContinuityStatus(d0, ArgsOf(p, kv, tiling), ctx);
  }

  /** A plan the device has accepted: everyone is taken, and nobody has come back. */
  lemma AllTaken(u: Setup, s: Sys, e: Event)
    requires e.DeviceRound? && Inv(s) && DeviceEnabled(u, s, e)
    ensures forall q | q in Schedules(u.config, u.maxRunning, s.v, e.base, e.blocks).1.plan.value.requests ::
              0 <= q.row < BATCH && Taken(s.d.(ready := true), q) && !Returned(q)
  {
    var p := Schedules(u.config, u.maxRunning, s.v, e.base, e.blocks).1.plan.value;
    OfferedPlan(u, s, e.base, e.blocks);
    OfferedPositions(u, s, e.base, e.blocks);
    PlanRefused(s.d, p, e.kv, e.tiling, e.ctx);
    forall q | q in p.requests
      ensures 0 <= q.row < BATCH && Taken(s.d.(ready := true), q) && !Returned(q)
    {
      assert ValidRequest(p, q) && KnownToDevice(s.d, p, q) && !TurnedDown(s.d, q);
      TakenOrTurnedDown(s.d, p, q);
    }
  }

  /** A scheduled request that is refused: one prompt token, at least one token made, and all of it on the host. */
  ghost predicate HostOnly(w: View, id: ReqId) {
    id in w.requests && id !in w.leases.owned && w.requests[id].prompt == 1 && Made(w.requests[id]) > 0
  }

  lemma StrandedAt(c: Config, w: View, blocks: Blocks, ids: seq<ReqId>, p: Plan, i: nat)
    requires AllLeased(w.requests, w.leases, ids) && Plannable(c, w.requests, w.leases, blocks, ids)
    requires p == PlanOf(c, w.requests, w.leases, blocks, ids) && i < |ids| && w.requests[ids[i]].prompt >= 1
    ensures |p.requests| == |ids| && (Stranded(p.requests[i]) <==> HostOnly(w, ids[i]))
  {
    EntryAt(c, w.requests, w.leases, blocks, ids, i);
    StrandedEntry(w.requests, w.leases, blocks, ids[i]);
  }

  lemma SomeStranded(requests: seq<PlanRequest>, w: View, ids: seq<ReqId>)
    requires |requests| == |ids| && forall i :: 0 <= i < |ids| ==> (Stranded(requests[i]) <==> HostOnly(w, ids[i]))
    ensures (exists q :: q in requests && Stranded(q)) <==> exists id :: id in ids && HostOnly(w, id)
  {
    if q :| q in requests && Stranded(q) {
      var i :| 0 <= i < |requests| && requests[i] == q;
      assert HostOnly(w, ids[i]);
    }
    if id :| id in ids && HostOnly(w, id) {
      var i :| 0 <= i < |ids| && ids[i] == id;
      assert Stranded(requests[i]);
    }
  }

  /** The stranded entries of a plan are exactly these requests. */
  lemma StrandedRequests(u: Setup, s: Sys, base: Base, blocks: Blocks)
    requires Inv(s) && LawfulBase(s.v, u.maxRunning, base)
    requires var scheduling := Schedules(u.config, u.maxRunning, s.v, base, blocks).1; scheduling.Accepted? && scheduling.plan.Some?
    ensures var (w, scheduling) := Schedules(u.config, u.maxRunning, s.v, base, blocks);
            (exists q :: q in scheduling.plan.value.requests && Stranded(q)) <==> exists id :: id in scheduling.out.ids && HostOnly(w, id)
  {
    var (w, scheduling) := Schedules(u.config, u.maxRunning, s.v, base, blocks);
    RoundHolds(u, s.v, base, blocks);
    forall id | id in scheduling.out.ids
      ensures id in w.requests && w.requests[id].prompt >= 1
    {
      assert id in w.running && RequestScheduled(s.v, w, scheduling.out, id);
      assert RequestOk(s.v.requests[id]);
    }
    var ids, p := scheduling.out.ids, scheduling.plan.value;
    forall i | 0 <= i < |ids|
      ensures |p.requests| == |ids| && (Stranded(p.requests[i]) <==> HostOnly(w, ids[i]))
    {
      StrandedAt(u.config, w, blocks, ids, p, i);
    }
    SomeStranded(p.requests, w, ids);
  }

  lemma ReturnedAt(c: Config, w: View, blocks: Blocks, ids: seq<ReqId>, p: Plan, i: nat)
    requires AllLeased(w.requests, w.leases, ids) && Plannable(c, w.requests, w.leases, blocks, ids)
    requires p == PlanOf(c, w.requests, w.leases, blocks, ids) && i < |ids| && 1 <= w.requests[ids[i]].prompt <= |w.requests[ids[i]].tokens|
    ensures |p.requests| == |ids| && p.requests[i].id == ids[i]
    ensures Returned(p.requests[i]) <==> ids[i] in w.leases.owned && Made(w.requests[ids[i]]) == 0
  {
    EntryAt(c, w.requests, w.leases, blocks, ids, i);
    assert Ready(c, w.requests[ids[i]], ids[i] in w.leases.owned, blocks(ids[i]));
  }

  /** The returned entries of a plan are exactly the requests without tokens whose id the device owns. */
  lemma ReturnedRequests(u: Setup, s: Sys, base: Base, blocks: Blocks)
    requires Inv(s) && LawfulBase(s.v, u.maxRunning, base)
    requires var scheduling := Schedules(u.config, u.maxRunning, s.v, base, blocks).1; scheduling.Accepted? && scheduling.plan.Some?
    ensures var (w, scheduling) := Schedules(u.config, u.maxRunning, s.v, base, blocks);
            var ids, entries := scheduling.out.ids, scheduling.plan.value.requests;
            |entries| == |ids| && forall i: nat | i < |ids| ::
              && entries[i].id == ids[i] && ids[i] in s.v.requests
              && (Returned(entries[i]) <==> ids[i] in w.leases.owned && Made(s.v.requests[ids[i]]) == 0)
  {
    var (w, scheduling) := Schedules(u.config, u.maxRunning, s.v, base, blocks);
    RoundHolds(u, s.v, base, blocks);
    var ids, p := scheduling.out.ids, scheduling.plan.value;
    forall i: nat | i < |ids|
      ensures |p.requests| == |ids| && p.requests[i].id == ids[i] && ids[i] in s.v.requests
      ensures Returned(p.requests[i]) <==> ids[i] in w.leases.owned && Made(s.v.requests[ids[i]]) == 0
    {
      assert ids[i] in w.running && RequestScheduled(s.v, w, scheduling.out, ids[i]) && RequestOk(s.v.requests[ids[i]]);
      ReturnedAt(u.config, w, blocks, ids, p, i);
    }
  }

  /** A device round makes progress: the cohort's budget shrinks by at least one token a member, and nobody's budget
      is overdrawn. */
  lemma DeviceProgress(u: Setup, s: Sys, e: Event)
    requires ValidConfig(u.config) && e.DeviceRound? && Inv(s) && DeviceEnabled(u, s, e)
    ensures var (w, scheduling) := Schedules(u.config, u.maxRunning, s.v, e.base, e.blocks);
            var ids, p := scheduling.out.ids, scheduling.plan.value;
            var lanes := Epoch(s.d.(ready := true), Fed(ArgsOf(p, e.kv, e.tiling)), e.ctx).1.l.lanes;
            && (forall id | id in ids :: id in s.v.requests && id in w.leases.rows && w.leases.rows[id] < BATCH && id in scheduling.out.counts)
            && var sampled := DeviceSamples(w.leases, ids, lanes);
               var after := Appended(Accounted(w.requests, scheduling.out, StepCounts(sampled)), sampled);
               && Progressed(s.v.requests, after, ids, p.maxSteps)
               && TotalRemaining(after, ids) <= TotalRemaining(s.v.requests, ids) - |ids|
               && forall id | id in ids :: 0 <= Remaining(after[id])
  {
    var (w, scheduling) := Schedules(u.config, u.maxRunning, s.v, e.base, e.blocks);
    RoundHolds(u, s.v, e.base, e.blocks);
    var out, ids, p := scheduling.out, scheduling.out.ids, scheduling.plan.value;
    var d := s.d.(ready := true);
    var (d', end) := Epoch(d, Fed(ArgsOf(p, e.kv, e.tiling)), e.ctx);
    EpochAnswersPlan(p, e.kv, e.tiling, d, e.ctx, d', end);
    var sampled := DeviceSamples(w.leases, ids, end.l.lanes);
    var after := Appended(Accounted(w.requests, out, StepCounts(sampled)), sampled);
    forall id | id in ids
      ensures id in s.v.requests && id in after && after[id].tokens == s.v.requests[id].tokens + sampled[id]
      ensures after[id].prompt == s.v.requests[id].prompt && after[id].maxTokens == s.v.requests[id].maxTokens
      ensures 1 <= |sampled[id]| <= p.maxSteps <= Remaining(s.v.requests[id])
    {
      assert id in w.running && RequestScheduled(s.v, w, out, id);
      PlannedRequestKept(u, s.v, w, out, e.blocks, p, d, d', end.l.lanes, id);
      AppendKeeps(Accounted(w.requests, out, StepCounts(sampled))[id], sampled[id]);
      StepsOfPlan(u, w, e.blocks, ids, id);
    }
    BudgetShrinks(s.v.requests, after, ids, p.maxSteps);
  }

  lemma {:induction false} AppendKeeps(q: Request, sampled: seq<int>)
    ensures Append(q, sampled).prompt == q.prompt && Append(q, sampled).maxTokens == q.maxTokens
    decreases |sampled|
  {
    if sampled != [] { AppendKeeps(q.(tokens := q.tokens + [sampled[0]]), sampled[1..]); }
  }

  lemma StepsOfPlan(u: Setup, w: View, blocks: Blocks, ids: seq<ReqId>, id: ReqId)
    requires ValidConfig(u.config) && id in ids && AllLeased(w.requests, w.leases, ids)
    requires Plannable(u.config, w.requests, w.leases, blocks, ids)
    ensures PlanOf(u.config, w.requests, w.leases, blocks, ids).maxSteps <= Remaining(w.requests[id])
  {
    forall x | x in ids
      ensures x in w.requests && Remaining(w.requests[x]) >= 1
    {
      assert Ready(u.config, w.requests[x], x in w.leases.owned, blocks(x));
    }
    StepsWithinBudgets(u.config, w.requests, ids);
  }
}
