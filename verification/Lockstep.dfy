/** The scheduler and the device side by side: what the scheduler plans for a request the device owns is exactly
    what the device remembers of it, in every reachable state. */
module Lockstep {
  import opened Layout
  import opened Flow
  import opened EpochSpec
  import opened EpochRows
  import opened Bridge
  import opened Contract
  import opened RowLeases
  import opened Scheduler
  import opened SchedulerSafety
  import opened Sidecar
  import KvTransfer

  const WARMUP_GENERATION := 0x7FFF_FFFF

  datatype Sys = Sys(v: View, d: Device)

  /** A request between rounds: everything but its last token is computed once it has made tokens. */
  ghost predicate RequestOk(q: Request) {
    && 1 <= q.prompt <= |q.tokens| && 0 <= q.computed < |q.tokens| && Remaining(q) >= 1
    && (Made(q) > 0 ==> q.computed == |q.tokens| - 1)
  }

  /** The device's metadata of the request that holds `generation`. */
  function MetaOf(generation: int, q: Request): Meta
    requires q.tokens != []
  {
    Meta(generation, q.tokens[|q.tokens| - 1], |q.tokens| - 1, |q.tokens|, 1)
  }

  /** A request the device owns is remembered there as the scheduler knows it, unless it has made nothing yet: then it
      is another request, which came back under the id of an earlier one. */
  ghost predicate InStep(l: Leases, d: Device, id: ReqId, q: Request) {
    id in l.owned && Made(q) >= 1 ==>
      && id in l.rows && id in l.generations && l.rows[id] < BATCH
      && q.tokens != [] && d.rows[l.rows[id]] == MetaOf(l.generations[id], q)
  }

  /** The lease of an owned id and its row on the device, which is beyond position 0. */
  ghost predicate Lingers(l: Leases, d: Device, id: ReqId) {
    && id in l.rows && id in l.generations && l.rows[id] < BATCH
    && d.rows[l.rows[id]].generation == l.generations[id] && d.rows[l.rows[id]].position >= 1
  }

  /** A request whose state the device holds. */
  ghost predicate Resident(v: View, id: ReqId) { id in v.requests && id in v.leases.owned && Made(v.requests[id]) >= 1 }

  /** Every owned id has one, whether its request still runs, has finished, was aborted, or has been replaced. */
  ghost predicate AllLinger(l: Leases, d: Device) { forall id | id in l.owned :: Lingers(l, d, id) }

  ghost predicate Unseen(d: Device, generation: int) { forall r: nat | r < BATCH :: d.rows[r].generation != generation }

  /** A lease the device does not own has a generation the device has never seen. */
  ghost predicate FreshLease(l: Leases, d: Device, id: ReqId) {
    id in l.rows && id in l.generations && id !in l.owned && l.generations[id] != WARMUP_GENERATION ==> Unseen(d, l.generations[id])
  }

  ghost predicate DeviceBelow(l: Leases, d: Device) {
    forall r: nat | r < BATCH :: d.rows[r].generation < l.next || d.rows[r].generation == WARMUP_GENERATION
  }

  ghost predicate Inv(s: Sys) {
    var l := s.v.leases;
    && Consistent(s.v) && DeviceBelow(l, s.d) && AllLinger(l, s.d)
    && (forall id | id in s.v.requests :: RequestOk(s.v.requests[id]) && InStep(l, s.d, id, s.v.requests[id]))
    && (forall id :: FreshLease(l, s.d, id))
  }

  // ----- what scheduling does to the leases

  /** The leases after a round: untouched, or assigned to exactly the scheduled requests. */
  ghost predicate LeaseStep(l: Leases, m: Leases, ids: seq<ReqId>) {
    m == l ||
    (&& Safe(m) && m.rows.Keys == Elements(ids) && m.owned == l.owned * Elements(ids) && l.next <= m.next
     && (forall id | id in l.rows && id in l.generations && id in ids :: m.rows[id] == l.rows[id] && m.generations[id] == l.generations[id])
     && (forall id | id in ids && id !in l.rows :: l.next <= m.generations[id]))
  }

  lemma PlannedLeases(c: Config, running: seq<ReqId>, requests: Requests, l: Leases, blocks: Blocks, out: Output)
    requires Safe(l) && forall id | id in out.ids :: id in out.counts && id in requests
    ensures LeaseStep(l, Planned(c, running, requests, l, blocks, out).0, out.ids)
    ensures Planned(c, running, requests, l, blocks, out).1.Built? ==>
              var m := Planned(c, running, requests, l, blocks, out).0;
              && PreChecks(running, out) && m.rows.Keys == Elements(out.ids) && m.owned <= Elements(out.ids)
              && AllLeased(requests, m, out.ids) && Plannable(c, requests, m, blocks, out.ids)
              && Planned(c, running, requests, l, blocks, out).1 == Built(PlanOf(c, requests, m, blocks, out.ids))
  {
    AssignSafe(l, out.ids);
    AssignLeases(l, requests, out.ids);
  }

  lemma InStepKept(l: Leases, m: Leases, ids: seq<ReqId>, d: Device, id: ReqId, q: Request)
    requires LeaseStep(l, m, ids) && InStep(l, d, id, q)
    ensures InStep(m, d, id, q)
  {
    if m != l && id in m.owned { assert id in ids; }
  }

  lemma LingersKept(l: Leases, m: Leases, ids: seq<ReqId>, d: Device)
    requires LeaseStep(l, m, ids) && AllLinger(l, d)
    ensures AllLinger(m, d)
  {
    forall id | id in m.owned
      ensures Lingers(m, d, id)
    {
      assert id in l.owned && Lingers(l, d, id);
    }
  }

  lemma FreshKept(l: Leases, m: Leases, ids: seq<ReqId>, d: Device, id: ReqId)
    requires Safe(l) && LeaseStep(l, m, ids) && FreshLease(l, d, id) && DeviceBelow(l, d)
    ensures FreshLease(m, d, id)
  {
    if m != l && id in m.rows && id !in m.owned {
      assert id in ids;
      assert id !in l.owned;
    }
  }

  /** The leases a round ends with still fit the device. */
  lemma LeasesKept(l: Leases, m: Leases, ids: seq<ReqId>, d: Device)
    requires Safe(l) && LeaseStep(l, m, ids) && DeviceBelow(l, d) && forall id :: FreshLease(l, d, id)
    ensures DeviceBelow(m, d) && forall id :: FreshLease(m, d, id)
  {
    forall id
      ensures FreshLease(m, d, id)
    {
      FreshKept(l, m, ids, d, id);
    }
  }

  // ----- the plan and the device

  /** A new request offered as the continuation of an earlier one with its id. */
  predicate Returned(q: PlanRequest) { q.owner.DeviceOwned? && q.position == 0 }

  /** What the device remembers of the requests of a plan. */
  ghost predicate KnownToDevice(d: Device, p: Plan, q: PlanRequest) {
    && (q.owner.DeviceOwned? ==>
          && 0 <= q.row < BATCH && d.rows[q.row].generation == q.generation && d.rows[q.row].position >= 1
          && (!Returned(q) ==> d.rows[q.row] == Meta(q.generation, q.token, q.position, q.length, 1)))
    && (q.owner.HostOwned? && q.generation != WARMUP_GENERATION ==> Unseen(d, q.generation))
  }

  lemma EntryKnown(requests: Requests, l: Leases, d: Device, blocks: Blocks, p: Plan, id: ReqId)
    requires Enterable(requests, l, blocks, id) && requests[id].computed == |requests[id].tokens|
    requires 1 <= requests[id].prompt <= |requests[id].tokens| && (Made(requests[id]) == 0 ==> requests[id].prompt == 1)
    requires InStep(l, d, id, requests[id]) && FreshLease(l, d, id) && (id in l.owned ==> Lingers(l, d, id))
    ensures KnownToDevice(d, p, EntryOf(l, id, requests[id], blocks(id)))
    ensures Returned(EntryOf(l, id, requests[id], blocks(id))) <==> id in l.owned && Made(requests[id]) == 0
  {
  }

  /** The import sent with a plan selects exactly the rows that need one. */
  ghost predicate ImportFor(p: Plan, kv: KvImport) {
    && (kv.KvPayload? <==> exists q :: q in p.requests && q.importRequired)
    && (kv.KvPayload? ==>
          0 < kv.mask < 16 && forall r: nat | r < BATCH :: Bit(kv.mask, r) <==> exists q :: q in p.requests && q.importRequired && q.row == r)
  }

  /** The mask both captures build is the one a plan asks for, and its rows are rows of the call. */
  lemma CapturedMask(p: Plan, payload: Payload, tiling: Tiling)
    requires ValidPlan(p) && p.graphBatch == BATCH && KvTransfer.Imports(p.requests) != []
    ensures var kv := KvPayload(KvTransfer.SumMask(KvTransfer.Imports(p.requests)), payload);
            ImportFor(p, kv) && ImportMatches(ArgsOf(p, kv, tiling))
  {
    var kv := KvPayload(KvTransfer.SumMask(KvTransfer.Imports(p.requests)), payload);
    assert KvTransfer.InBatch(p.requests) by { assert forall q | q in p.requests :: ValidRequest(p, q); }
    KvTransfer.MaskOfPlan(p.requests);
    var first := KvTransfer.Imports(p.requests)[0];
    assert first in p.requests && first.importRequired;
    assert ImportFor(p, kv) by {
      assert forall r: nat | r < BATCH :: Bit(kv.mask, r) <==> KvTransfer.WantsImport(p.requests, r);
    }
    CapturedRows(p, kv, tiling);
  }

  lemma CapturedRows(p: Plan, kv: KvImport, tiling: Tiling)
    requires ValidPlan(p) && p.graphBatch == BATCH && kv.KvPayload? && ImportFor(p, kv)
    ensures ImportMatches(ArgsOf(p, kv, tiling))
  {
    ArgsAt(p, kv, tiling);
    forall r: nat | r < BATCH && Bit(kv.mask, r)
      ensures ArgsOf(p, kv, tiling).generation[r] > 0
    {
      var q :| q in p.requests && q.importRequired && q.row == r;
      assert ValidRequest(p, q);
    }
  }

  /** A row remembers exactly what a request of its own generation offers. */
  predicate SameLease(m: Meta, q: PlanRequest) {
    m.valid != 0 && m.token == q.token && m.position == q.position && m.length == q.length
  }

  /** The device takes a request: its KV is sent along, or its row goes on, or it starts at position 0. */
  predicate Taken(d: Device, q: PlanRequest)
    requires 0 <= q.row < BATCH
  {
    q.importRequired || if d.rows[q.row].generation == q.generation then SameLease(d.rows[q.row], q) else q.position == 0
  }

  /** It has run on the host, and its KV is not sent along. */
  predicate Stranded(q: PlanRequest) { q.owner.HostOwned? && !q.importRequired && q.position > 0 }

  lemma RequestContinues(d: Device, p: Plan, kv: KvImport, tiling: Tiling, q: PlanRequest)
    requires ValidPlan(p) && p.graphBatch == BATCH && ImportFor(p, kv) && Code(ArgsOf(p, kv, tiling)) == ACCEPTED
    requires ImportMatches(ArgsOf(p, kv, tiling)) && q in p.requests
    ensures ValidRequest(p, q)
    ensures var e := Fed(ArgsOf(p, kv, tiling));
            Continues(Import(d, e).0.rows[q.row], e.rows[q.row]) <==> Taken(d, q)
  {
    var a := ArgsOf(p, kv, tiling);
    var e := Fed(a);
    ArgsAt(p, kv, tiling);
    FedValid(a);
    ImportEffect(d, e);
    var d1 := Import(d, e).0;
    var r := q.row;
    assert ValidRequest(p, q) && !RowRejected(a, r);
    assert e.rows[r] == FedRow(a, r);
    assert Imports(e, r) <==> Selected(e, r);
    assert Selected(e, r) <==> q.importRequired by { OneARow(p, q); }
    assert if Imports(e, r) then RowImported(e, d1, r) else RowUntouched(d, d1, r);
  }

  lemma OneARow(p: Plan, q: PlanRequest)
    requires ValidPlan(p) && q in p.requests
    ensures (exists t :: t in p.requests && t.importRequired && t.row == q.row) <==> q.importRequired
  {
    forall t | t in p.requests && t.row == q.row
      ensures t == q
    {
      var i :| 0 <= i < |p.requests| && p.requests[i] == q;
      var j :| 0 <= j < |p.requests| && p.requests[j] == t;
    }
  }

  lemma EmptyRowContinues(d: Device, p: Plan, kv: KvImport, tiling: Tiling, r: nat)
    requires ValidPlan(p) && p.graphBatch == BATCH && r < BATCH && !exists q :: q in p.requests && q.row == r
    ensures var e := Fed(ArgsOf(p, kv, tiling)); Continues(Import(d, e).0.rows[r], e.rows[r])
  {
    ArgsAt(p, kv, tiling);
    assert Fed(ArgsOf(p, kv, tiling)).rows[r] == FedRow(ArgsOf(p, kv, tiling), r);
  }

  /** Status 212 exactly, for any plan on any device: the continuity check passes if and only if every request is
      taken. */
  lemma ContinuityOfPlan(d: Device, p: Plan, kv: KvImport, tiling: Tiling)
    requires ValidPlan(p) && p.graphBatch == BATCH && ImportFor(p, kv) && Code(ArgsOf(p, kv, tiling)) == ACCEPTED
    requires ImportMatches(ArgsOf(p, kv, tiling))
    ensures var e := Fed(ArgsOf(p, kv, tiling));
            Continuity(Import(d, e).0, e) <==> forall q | q in p.requests :: ValidRequest(p, q) && Taken(d, q)
  {
    var e := Fed(ArgsOf(p, kv, tiling));
    var d1 := Import(d, e).0;
    forall q | q in p.requests
      ensures ValidRequest(p, q) && (Continues(d1.rows[q.row], e.rows[q.row]) <==> Taken(d, q))
    {
      RequestContinues(d, p, kv, tiling, q);
    }
    forall r: nat | r < BATCH && !exists q :: q in p.requests && q.row == r
      ensures Continues(d1.rows[r], e.rows[r])
    {
      EmptyRowContinues(d, p, kv, tiling, r);
    }
  }

  /** The device refuses a request whose state it does not hold: it came back under an owned id, its row has the
      request's generation with other contents, or another generation while the request is beyond position 0. */
  predicate TurnedDown(d: Device, q: PlanRequest)
    requires 0 <= q.row < BATCH
  {
    Returned(q) ||
    (&& q.owner.HostOwned? && !q.importRequired
     && if d.rows[q.row].generation == q.generation then !SameLease(d.rows[q.row], q) else q.position > 0)
  }

  /** One of the host's requests with the warm-up's generation. */
  predicate FromWarmup(q: PlanRequest) { q.owner.HostOwned? && q.generation == WARMUP_GENERATION }

  /** A request the device knows is not taken exactly if it is refused; unless it has the warm-up's generation, exactly
      if it is stranded or returned. */
  lemma TakenOrTurnedDown(d: Device, p: Plan, q: PlanRequest)
    requires ValidRequest(p, q) && 0 <= q.row < BATCH && KnownToDevice(d, p, q) && 0 <= q.position
    ensures !Taken(d, q) <==> TurnedDown(d, q)
    ensures !FromWarmup(q) ==> (TurnedDown(d, q) <==> Stranded(q) || Returned(q))
  {
  }

  /** Stranded requests are those with a one-token prompt that have taken a step on the host. */
  lemma StrandedEntry(requests: Requests, l: Leases, blocks: Blocks, id: ReqId)
    requires Enterable(requests, l, blocks, id) && requests[id].computed == |requests[id].tokens| && 1 <= requests[id].prompt
    ensures Stranded(EntryOf(l, id, requests[id], blocks(id))) <==>
            id !in l.owned && requests[id].prompt == 1 && Made(requests[id]) > 0
  {
  }

  // ----- events

  /** One thing that happens to the system. */
  datatype Event =
    | Arrive(id: ReqId, request: Request)
    | Abort(id: ReqId)
    | HostRound(base: Base, blocks: Blocks, sampled: map<ReqId, seq<int>>)
    | DeviceRound(base: Base, blocks: Blocks, kv: KvImport, tiling: Tiling, ctx: Context)

  datatype Setup = Setup(config: Config, maxRunning: int)

  ghost predicate NewRequest(q: Request) {
    q.prompt >= 1 && |q.tokens| == q.prompt && q.computed == 0 && q.maxTokens >= 1
  }

  /** The host samples a token for exactly the requests whose tokens are all computed. */
  ghost predicate HostSamples(w: View, out: Output, sampled: map<ReqId, seq<int>>) {
    && sampled.Keys == Elements(out.ids)
    && forall id | id in out.ids ::
         id in w.requests && |sampled[id]| == if w.requests[id].computed == |w.requests[id].tokens| then 1 else 0
  }

  /** What the device samples for the scheduled requests, read from their rows. */
  function DeviceSamples(l: Leases, ids: seq<ReqId>, lanes: Lanes): (sampled: map<ReqId, seq<int>>)
    requires forall id | id in ids :: id in l.rows && l.rows[id] < BATCH
    ensures sampled.Keys == Elements(ids)
  {
    map id | id in Elements(ids) :: lanes[l.rows[id]].made
  }

  function StepCounts(sampled: map<ReqId, seq<int>>): (steps: map<ReqId, int>)
    ensures steps.Keys == sampled.Keys && forall id :: id in sampled ==> steps[id] == |sampled[id]|
  {
    map id | id in sampled :: |sampled[id]|
  }

  ghost predicate HostEnabled(u: Setup, s: Sys, e: Event)
    requires e.HostRound? && Inv(s)
  {
    && LawfulBase(s.v, u.maxRunning, e.base)
    && var (w, scheduling) := Schedules(u.config, u.maxRunning, s.v, e.base, e.blocks);
       && scheduling.Accepted? && HostSamples(w, scheduling.out, e.sampled)
       && (scheduling.plan.Some? ==> HostReplaySafe(scheduling.plan.value))
  }

  ghost predicate DeviceEnabled(u: Setup, s: Sys, e: Event)
    requires e.DeviceRound? && Inv(s)
  {
    && LawfulBase(s.v, u.maxRunning, e.base)
    && var (w, scheduling) := Schedules(u.config, u.maxRunning, s.v, e.base, e.blocks);
       && scheduling.Accepted? && scheduling.plan.Some?
       && var a := ArgsOf(scheduling.plan.value, e.kv, e.tiling);
          && Code(a) == ACCEPTED && ImportMatches(a) && ImportFor(scheduling.plan.value, e.kv)
          && Epoch(s.d.(ready := true), Fed(a), e.ctx).1.status == OK
  }

  /** What can happen next. A failed device epoch, like any uncaught exception, ends the run. */
  ghost predicate Enabled(u: Setup, s: Sys, e: Event)
    requires Inv(s)
  {
    match e
    case Arrive(id, q) =>
      NewRequest(q) && id !in s.v.requests && id !in s.v.running && id !in s.v.waiting
    case Abort(id) => id in s.v.requests
    case HostRound(_, _, _) => HostEnabled(u, s, e)
    case DeviceRound(_, _, _, _, _) => DeviceEnabled(u, s, e)
  }

  function Without(ids: seq<ReqId>, id: ReqId): seq<ReqId> { Filter(ids, {id}, false) }

  ghost function AfterHost(u: Setup, s: Sys, e: Event): Sys
    requires e.HostRound? && Inv(s) && HostEnabled(u, s, e)
  {
    var w := Schedules(u.config, u.maxRunning, s.v, e.base, e.blocks).0;
    Sys(Closed(w, w.requests, e.sampled), s.d)
  }

  /** The view after a device epoch with the given samples: accounting, ownership, then the base scheduler. */
  function DeviceClosed(w: View, out: Output, p: Plan, sampled: map<ReqId, seq<int>>): View
    requires forall id | id in sampled :: id in out.counts
  {
    Closed(w.(leases := w.leases.(owned := w.leases.owned + HostIds(p.requests))),
           Accounted(w.requests, out, StepCounts(sampled)), sampled)
  }
}
