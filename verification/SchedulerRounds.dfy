/** The scheduler's class over whole rounds: scheduling, the result that comes back, accounting and the base scheduler's
    update leave it in the state the runs of the whole system are about. */
module SchedulerRounds {
  import opened Layout
  import opened Flow
  import opened EpochSpec
  import opened EpochRows
  import opened Bridge
  import opened Contract
  import opened RowLeases
  import opened Scheduler
  import opened SchedulerSafety
  import opened ImportChecksum
  import opened Sidecar
  import opened Lockstep
  import opened LockstepRuns

  // ----- device rounds

  /** What the bridge has collected of the plan's epoch. */
  ghost predicate Collected(p: Plan, kv: KvImport, tiling: Tiling, end: Ending, o: BridgeOutputs)
    requires p.graphBatch == BATCH
  {
    CollectedFrom(HistoryOf(end.l.lanes), Control(Fed(ArgsOf(p, kv, tiling)), end), o)
  }

  /** Entry by entry, a plan is about these ids and their rows. */
  ghost predicate EntriesOf(requests: seq<PlanRequest>, l: Leases, ids: seq<ReqId>) {
    |requests| == |ids| && forall i: nat | i < |ids| :: requests[i].id == ids[i] && ids[i] in l.rows && requests[i].row == l.rows[ids[i]]
  }

  lemma PlanEntries(u: Setup, w: View, blocks: Blocks, ids: seq<ReqId>, p: Plan)
    requires AllLeased(w.requests, w.leases, ids) && Plannable(u.config, w.requests, w.leases, blocks, ids)
    requires p == PlanOf(u.config, w.requests, w.leases, blocks, ids)
    ensures EntriesOf(p.requests, w.leases, ids)
  {
    forall i: nat | i < |ids|
      ensures |p.requests| == |ids| && p.requests[i].id == ids[i] && ids[i] in w.leases.rows && p.requests[i].row == w.leases.rows[ids[i]]
    {
      EntryAt(u.config, w.requests, w.leases, blocks, ids, i);
    }
    if ids == [] { assert p.requests == []; }
  }

  lemma PlanIds(u: Setup, w: View, blocks: Blocks, ids: seq<ReqId>, p: Plan)
    requires AllLeased(w.requests, w.leases, ids) && Plannable(u.config, w.requests, w.leases, blocks, ids)
    requires p == PlanOf(u.config, w.requests, w.leases, blocks, ids)
    ensures Ids(p) == Elements(ids) && |p.requests| == |ids|
    ensures forall q | q in p.requests :: q.id in ids && q.id in w.leases.rows && q.row == w.leases.rows[q.id]
  {
    PlanEntries(u, w, blocks, ids, p);
    EntryIds(p, w.leases, ids);
  }

  lemma EntryIds(p: Plan, l: Leases, ids: seq<ReqId>)
    requires EntriesOf(p.requests, l, ids)
    ensures Ids(p) == Elements(ids)
    ensures forall q | q in p.requests :: q.id in ids && q.id in l.rows && q.row == l.rows[q.id]
  {
    forall q | q in p.requests
      ensures q.id in ids && q.id in l.rows && q.row == l.rows[q.id]
    {
      var i: nat :| i < |p.requests| && p.requests[i] == q;
      assert p.requests[i].id == ids[i];
    }
    forall id | id in ids
      ensures id in Ids(p)
    {
      var i: nat :| i < |ids| && ids[i] == id;
      assert p.requests[i].id == id && p.requests[i] in p.requests;
    }
  }

  /** The tokens read from the outputs are the rows' of the epoch. */
  lemma TokensAreSamples(p: Plan, l: Leases, ids: seq<ReqId>, lanes: Lanes, o: BridgeOutputs, tokens: map<ReqId, seq<int>>)
    requires ValidPlan(p) && p.graphBatch == BATCH && TokensOf(p, o, tokens) && Ids(p) == Elements(ids)
    requires forall q | q in p.requests :: q.id in l.rows && q.row == l.rows[q.id] && 0 <= q.row < BATCH
    requires forall q | q in p.requests :: 0 <= o.executed[q.row] <= MAX_EPOCH_STEPS && RowTokens(o, q.row) == lanes[q.row].made
    requires forall id | id in ids :: id in l.rows && l.rows[id] < BATCH
    ensures tokens == DeviceSamples(l, ids, lanes)
  {
    forall id | id in tokens
      ensures tokens[id] == DeviceSamples(l, ids, lanes)[id]
    {
      var q :| q in p.requests && q.id == id;
    }
  }

  /** Both ways to say who is owned afterwards. */
  lemma SameOwners(before: set<ReqId>, after: set<ReqId>, r: EpochResult, p: Plan)
    requires HandedOver(before, after, r, p)
    ensures after == if r.route.DeviceRoute? then before + HostIds(p.requests) else before
  {
  }

  /** What an epoch of an accepted plan gives back. */
  ghost predicate Returns(p: Plan, d: Device, kv: KvImport, tiling: Tiling, ctx: Context, end: Ending, o: BridgeOutputs,
                          tokens: map<ReqId, seq<int>>, transfer: Transfer, snapshot: int)
  {
    && ValidPlan(p) && p.graphBatch == BATCH && Carries(p, kv, transfer, snapshot)
    && (kv.KvPayload? ==> PayloadChecksum(kv.payload, kv.mask) != 0)
    && Code(ArgsOf(p, kv, tiling)) == ACCEPTED && ImportMatches(ArgsOf(p, kv, tiling))
    && end == Epoch(d.(ready := true), Fed(ArgsOf(p, kv, tiling)), ctx).1 && end.status == OK
    && Collected(p, kv, tiling, end, o) && TokensOf(p, o, tokens)
  }

  lemma ReturnsRead(p: Plan, d: Device, kv: KvImport, tiling: Tiling, ctx: Context, end: Ending, o: BridgeOutputs,
                    tokens: map<ReqId, seq<int>>, transfer: Transfer, snapshot: int)
    requires Returns(p, d, kv, tiling, ctx, end, o, tokens, transfer, snapshot)
    ensures forall q | q in p.requests ::
              0 <= q.row < BATCH && 0 <= o.executed[q.row] <= MAX_EPOCH_STEPS && RowTokens(o, q.row) == end.l.lanes[q.row].made
    ensures Accepts(ResultOf(o, tokens, kv, transfer, snapshot), p, tokens)
    ensures PlanAnswered(p, d.(ready := true), Epoch(d.(ready := true), Fed(ArgsOf(p, kv, tiling)), ctx).0, end.l.lanes)
  {
    var d', e := Epoch(d.(ready := true), Fed(ArgsOf(p, kv, tiling)), ctx).0, Fed(ArgsOf(p, kv, tiling));
    EpochShape(d.(ready := true), e, ctx, d', end);
    AllServed(p, kv, tiling, end, o);
    EpochMeetsContract(d, p, kv, tiling, ctx, end, o, tokens, transfer, snapshot);
    EpochAnswersPlan(p, kv, tiling, d.(ready := true), ctx, d', end);
  }

  /** The plan of a round and the requests it is about. */
  ghost predicate PlanOfRound(u: Setup, v: View, w: View, out: Output, blocks: Blocks, p: Plan) {
    && (forall id | id in out.ids :: id in out.counts && RequestScheduled(v, w, out, id) && RequestOk(v.requests[id])) && PreChecks(w.running, out)
    && AllLeased(w.requests, w.leases, out.ids) && Plannable(u.config, w.requests, w.leases, blocks, out.ids)
    && p == PlanOf(u.config, w.requests, w.leases, blocks, out.ids) && ValidPlan(p) && p.graphBatch == BATCH
  }

  lemma RoundPlanned(u: Setup, v: View, w: View, scheduling: Scheduling, blocks: Blocks)
    requires scheduling.Accepted? && scheduling.plan.Some? && RoundFacts(u, v, w, scheduling, blocks)
    requires forall id | id in v.requests :: RequestOk(v.requests[id])
    ensures PlanOfRound(u, v, w, scheduling.out, blocks, scheduling.plan.value)
  {
    forall id | id in scheduling.out.ids
      ensures RequestScheduled(v, w, scheduling.out, id) && RequestOk(v.requests[id])
    {
      assert id in w.running && id in v.requests;
    }
  }

  lemma SamplesOfRound(u: Setup, v: View, w: View, out: Output, blocks: Blocks, p: Plan, d: Device, kv: KvImport, tiling: Tiling, ctx: Context,
                       end: Ending, o: BridgeOutputs, tokens: map<ReqId, seq<int>>, transfer: Transfer, snapshot: int)
    requires PlanOfRound(u, v, w, out, blocks, p) && Returns(p, d, kv, tiling, ctx, end, o, tokens, transfer, snapshot)
    ensures forall id | id in out.ids :: id in w.leases.rows && w.leases.rows[id] < BATCH
    ensures tokens == DeviceSamples(w.leases, out.ids, end.l.lanes)
  {
    ReturnsRead(p, d, kv, tiling, ctx, end, o, tokens, transfer, snapshot);
    PlanIds(u, w, blocks, out.ids, p);
    TokensAreSamples(p, w.leases, out.ids, end.l.lanes, o, tokens);
  }

  /** The accounting takes the result. */
  lemma ResultCounts(u: Setup, v: View, w: View, out: Output, blocks: Blocks, p: Plan, d: Device, d': Device, lanes: Lanes, r: EpochResult,
                     sampled: map<ReqId, seq<int>>)
    requires ValidConfig(u.config) && PlanOfRound(u, v, w, out, blocks, p) && PlanAnswered(p, d, d', lanes)
    requires forall id | id in out.ids :: id in w.leases.rows && w.leases.rows[id] < BATCH
    requires sampled == DeviceSamples(w.leases, out.ids, lanes) && r.steps == StepCounts(sampled) && Accepts(r, p, sampled)
    ensures Countable(w.requests, out, r, p, sampled)
  {
    forall id | id in r.steps
      ensures ExtraOk(w.requests, out, r.steps, sampled, id)
    {
      assert id in out.ids && RequestScheduled(v, w, out, id);
      PlannedRequestKept(u, v, w, out, blocks, p, d, d', lanes, id);
    }
  }

  lemma ResultOfRound(u: Setup, v: View, w: View, out: Output, blocks: Blocks, p: Plan, d: Device, kv: KvImport, tiling: Tiling, ctx: Context,
                      end: Ending, o: BridgeOutputs, tokens: map<ReqId, seq<int>>, transfer: Transfer, snapshot: int)
    requires ValidConfig(u.config) && PlanOfRound(u, v, w, out, blocks, p) && Returns(p, d, kv, tiling, ctx, end, o, tokens, transfer, snapshot)
    ensures Countable(w.requests, out, ResultOf(o, tokens, kv, transfer, snapshot), p, tokens)
  {
    ReturnsRead(p, d, kv, tiling, ctx, end, o, tokens, transfer, snapshot);
    SamplesOfRound(u, v, w, out, blocks, p, d, kv, tiling, ctx, end, o, tokens, transfer, snapshot);
    var d' := Epoch(d.(ready := true), Fed(ArgsOf(p, kv, tiling)), ctx).0;
    SameSteps(o, tokens, kv, transfer, snapshot);
    ResultCounts(u, v, w, out, blocks, p, d.(ready := true), d', end.l.lanes, ResultOf(o, tokens, kv, transfer, snapshot), tokens);
  }

  lemma SameSteps(o: BridgeOutputs, tokens: map<ReqId, seq<int>>, kv: KvImport, transfer: Transfer, snapshot: int)
    ensures ResultOf(o, tokens, kv, transfer, snapshot).steps == StepCounts(tokens)
  {
  }

  /** A device round of the class: schedule, read the outputs, account, update. It ends in the state the runs say. */
  method DeviceRoundInPlace(sch: ResidentScheduler, u: Setup, ghost s: Sys, base: Base, blocks: Blocks, kv: KvImport, tiling: Tiling,
                            ghost ctx: Context, o: BridgeOutputs, transfer: Transfer, snapshot: int) returns (ok: bool)
    requires ValidConfig(u.config) && sch.config == u.config && sch.maxRunning == u.maxRunning
    requires Inv(s) && sch.Now() == s.v && DeviceEnabled(u, s, DeviceRound(base, blocks, kv, tiling, ctx))
    requires var p := Schedules(u.config, u.maxRunning, s.v, base, blocks).1.plan.value;
             && ValidPlan(p) && p.graphBatch == BATCH && Carries(p, kv, transfer, snapshot)
             && (kv.KvPayload? ==> PayloadChecksum(kv.payload, kv.mask) != 0)
             && Collected(p, kv, tiling, Epoch(s.d.(ready := true), Fed(ArgsOf(p, kv, tiling)), ctx).1, o)
    modifies sch
    ensures ok && sch.Now() == AfterDevice(u, s, DeviceRound(base, blocks, kv, tiling, ctx)).v
  {
    ghost var (w, expected) := Schedules(u.config, u.maxRunning, s.v, base, blocks);
    ghost var end := Epoch(s.d.(ready := true), Fed(ArgsOf(expected.plan.value, kv, tiling)), ctx).1;
    RoundHolds(u, s.v, base, blocks);
    RoundPlanned(u, s.v, w, expected, blocks);
    OutputsInRange(expected.plan.value, s.d, kv, tiling, ctx, end, o);
    var scheduling := sch.Schedule(base, blocks);
    var p := scheduling.plan.value;
    var read, tokens := ReadTokens(p, o);
    SamplesOfRound(u, s.v, w, expected.out, blocks, p, s.d, kv, tiling, ctx, end, o, tokens, transfer, snapshot);
    ResultOfRound(u, s.v, w, expected.out, blocks, p, s.d, kv, tiling, ctx, end, o, tokens, transfer, snapshot);
    PlanIds(u, w, blocks, expected.out.ids, p);
    var result := ResultOf(o, tokens, kv, transfer, snapshot);
    ok := sch.UpdateFromOutput(scheduling.out, Some(p), Some(result), tokens);
    SameOwners(w.leases.owned, sch.owned, result, p);
  }

  lemma OutputsInRange(p: Plan, d: Device, kv: KvImport, tiling: Tiling, ctx: Context, end: Ending, o: BridgeOutputs)
    requires ValidPlan(p) && p.graphBatch == BATCH && Code(ArgsOf(p, kv, tiling)) == ACCEPTED && ImportMatches(ArgsOf(p, kv, tiling))
    requires end == Epoch(d.(ready := true), Fed(ArgsOf(p, kv, tiling)), ctx).1 && end.status == OK && Collected(p, kv, tiling, end, o)
    ensures 1 <= p.maxSteps <= MAX_EPOCH_STEPS && forall q | q in p.requests :: ValidRequest(p, q) && 0 <= o.executed[q.row] <= p.maxSteps
  {
    var e := Fed(ArgsOf(p, kv, tiling));
    EpochShape(d.(ready := true), e, ctx, Epoch(d.(ready := true), e, ctx).0, end);
    AllServed(p, kv, tiling, end, o);
    forall q | q in p.requests
      ensures ValidRequest(p, q) && 0 <= o.executed[q.row] <= p.maxSteps
    {
      assert Served(p, q, end.l.calls, RowTokens(o, q.row));
    }
  }

  // ----- host rounds

  /** The host samples one token for every request of a plan. */
  lemma FallbackSamples(u: Setup, v: View, w: View, out: Output, blocks: Blocks, p: Plan, sampled: map<ReqId, seq<int>>)
    requires ValidConfig(u.config) && PlanOfRound(u, v, w, out, blocks, p) && HostSamples(w, out, sampled)
    ensures Ids(p) == Elements(out.ids) && 1 <= p.maxSteps && forall id | id in sampled :: |sampled[id]| == 1
    ensures forall id | id in out.ids :: w.requests[id].computed == |w.requests[id].tokens|
  {
    PlanIds(u, w, blocks, out.ids, p);
    forall id | id in out.ids
      ensures w.requests[id].computed == |w.requests[id].tokens|
    {
      assert Ready(u.config, w.requests[id], id in w.leases.owned, blocks(id));
    }
    StepsOfPlan(u, w, blocks, out.ids, out.ids[0]);
  }

  /** The fallback result counts no extra step and hands nobody over. */
  lemma FallbackCounts(requests: Requests, out: Output, p: Plan, sampled: map<ReqId, seq<int>>)
    requires ValidPlan(p) && 1 <= p.maxSteps && HostReplaySafe(p) && sampled.Keys == Ids(p) == Elements(out.ids)
    requires forall id | id in sampled :: |sampled[id]| == 1
    requires forall id | id in out.ids :: id in requests && id in out.counts && out.counts[id] == 1 && requests[id].computed == |requests[id].tokens|
    ensures Countable(requests, out, FallbackResult(p), p, sampled)
    ensures Accounted(requests, out, FallbackResult(p).steps) == requests
  {
    FallbackMeetsContract(p, sampled);
    forall id | id in FallbackResult(p).steps
      ensures ExtraOk(requests, out, FallbackResult(p).steps, sampled, id)
    {
      assert id in Elements(out.ids);
    }
  }

  lemma HostResult(u: Setup, v: View, w: View, out: Output, blocks: Blocks, p: Plan, sampled: map<ReqId, seq<int>>)
    requires ValidConfig(u.config) && PlanOfRound(u, v, w, out, blocks, p) && HostSamples(w, out, sampled) && HostReplaySafe(p)
    ensures forall id | id in Ids(p) :: id in w.requests && id in out.counts
    ensures Countable(w.requests, out, FallbackResult(p), p, sampled) && Accounted(w.requests, out, FallbackResult(p).steps) == w.requests
  {
    FallbackSamples(u, v, w, out, blocks, p, sampled);
    FallbackCounts(w.requests, out, p, sampled);
  }

  /** The result the plugin attaches to a host round: none without a plan, the fallback's with one. */
  function HostResultOf(plan: Option<Plan>): Option<EpochResult> {
    if plan.Some? then Some(FallbackResult(plan.value)) else None
  }

  /** A host round of the class, with or without a plan. */
  method HostRoundInPlace(sch: ResidentScheduler, u: Setup, ghost s: Sys, base: Base, blocks: Blocks, sampled: map<ReqId, seq<int>>)
    returns (ok: bool)
    requires ValidConfig(u.config) && sch.config == u.config && sch.maxRunning == u.maxRunning
    requires Inv(s) && sch.Now() == s.v && HostEnabled(u, s, HostRound(base, blocks, sampled))
    modifies sch
    ensures ok && sch.Now() == AfterHost(u, s, HostRound(base, blocks, sampled)).v
  {
    ghost var (w, expected) := Schedules(u.config, u.maxRunning, s.v, base, blocks);
    RoundHolds(u, s.v, base, blocks);
    var scheduling := sch.Schedule(base, blocks);
    if expected.plan.Some? {
      RoundPlanned(u, s.v, w, expected, blocks);
      HostResult(u, s.v, w, expected.out, blocks, expected.plan.value, sampled);
    }
    ok := sch.UpdateFromOutput(scheduling.out, scheduling.plan, HostResultOf(scheduling.plan), sampled);
    if expected.plan.Some? { SameOwners(w.leases.owned, sch.owned, FallbackResult(expected.plan.value), expected.plan.value); }
  }
}
