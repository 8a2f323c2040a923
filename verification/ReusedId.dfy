/** A request id that is used again while the device still owns the lease of its earlier request: whether the new request
    gets through, and a run in which it does not. */
module ReusedId {
  import opened Layout
  import opened Flow
  import opened EpochSpec
  import opened EpochRows
  import opened Bridge
  import opened Contract
  import opened RowLeases
  import opened Scheduler
  import opened SchedulerSafety
  import opened Sidecar
  import opened Lockstep
  import opened LockstepRuns
  import opened EpochSchedule
  import opened LoneRuns
  import opened CapacityRuns
  import opened SoloRounds
  import opened DeviceRuns

  // ----- one round

  /** Nothing but continuity keeps the device from a plan. */
  ghost predicate Sendable(p: Plan, kv: KvImport, tiling: Tiling) {
    && ValidPlan(p) && p.graphBatch == BATCH && ImportFor(p, kv)
    && Code(ArgsOf(p, kv, tiling)) == ACCEPTED && ImportMatches(ArgsOf(p, kv, tiling))
  }

  /** The scheduler raises, or the device refuses the plan with status 212. */
  ghost predicate Fails(d: Device, scheduling: Scheduling, kv: KvImport, tiling: Tiling, ctx: Context) {
    match scheduling
    case Refused => true
    case Accepted(_, plan, _) =>
      plan.Some? && Epoch(d.(ready := true), Fed(ArgsOf(plan.value, kv, tiling)), ctx).1.status == RESIDENT_CONTINUITY
  }

  /** The scheduled request is a reason: the device owns it in a round that raises, or turns its entry down. */
  ghost predicate AtFault(d: Device, w: View, scheduling: Scheduling, id: ReqId) {
    match scheduling
    case Refused => id in w.leases.owned
    case Accepted(_, plan, _) =>
      plan.Some? && exists q :: q in plan.value.requests && q.id == id && 0 <= q.row < BATCH && TurnedDown(d, q)
  }

  /** The plan's entry of a scheduled request that has made nothing. */
  ghost predicate UnstartedEntry(l: Leases, id: ReqId, q: PlanRequest) {
    && q.id == id && q.position == 0 && (q.owner.DeviceOwned? <==> id in l.owned)
    && id in l.generations && q.generation == l.generations[id]
  }

  lemma EntryUnstarted(c: Config, w: View, ids: seq<ReqId>, p: Plan, id: ReqId, blocks: Blocks) returns (q: PlanRequest)
    requires AllLeased(w.requests, w.leases, ids) && Plannable(c, w.requests, w.leases, blocks, ids) && id in ids
    requires p == PlanOf(c, w.requests, w.leases, blocks, ids) && w.requests[id].prompt >= 1 && Made(w.requests[id]) == 0
    ensures q in p.requests && UnstartedEntry(w.leases, id, q)
  {
    var i: nat :| i < |ids| && ids[i] == id;
    EntryAt(c, w.requests, w.leases, blocks, ids, i);
    assert Ready(c, w.requests[id], id in w.leases.owned, blocks(id));
    q := p.requests[i];
  }

  lemma OneEntry(p: Plan, q: PlanRequest, t: PlanRequest)
    requires ValidPlan(p) && q in p.requests && t in p.requests && q.id == t.id
    ensures q == t
  {
    var i :| 0 <= i < |p.requests| && p.requests[i] == q;
    var j :| 0 <= j < |p.requests| && p.requests[j] == t;
  }

  /** The round's assignment keeps the ownership of whom it schedules. */
  lemma OwnershipKept(u: Setup, v: View, base: Base, blocks: Blocks, id: ReqId)
    requires Consistent(v) && LawfulBase(v, u.maxRunning, base) && id in Decision(v, u.maxRunning, base).ids
    ensures id in Schedules(u.config, u.maxRunning, v, base, blocks).0.leases.owned <==> id in v.leases.owned
  {
    var isolated := Isolated(v, u.maxRunning);
    var choice := Decision(v, u.maxRunning, base);
    var w := Rescheduled(v, isolated, choice);
    PlannedLeases(u.config, w.running, w.requests, v.leases, blocks, OutputOf(choice));
    assert id in Elements(choice.ids);
  }

  lemma UnstartedScheduled(u: Setup, v: View, w: View, scheduling: Scheduling, blocks: Blocks, id: ReqId) returns (q: PlanRequest)
    requires scheduling.Accepted? && RoundFacts(u, v, w, scheduling, blocks) && id in scheduling.out.ids && scheduling.plan.Some?
    requires id in v.requests && RequestOk(v.requests[id]) && Made(v.requests[id]) == 0
    ensures var p := scheduling.plan.value; ValidPlan(p) && q in p.requests && ValidRequest(p, q) && p.graphBatch == BATCH
    ensures UnstartedEntry(w.leases, id, q)
  {
    assert RequestScheduled(v, w, scheduling.out, id);
    q := EntryUnstarted(u.config, w, scheduling.out.ids, scheduling.plan.value, id, blocks);
  }

  /** The entry of an owned request without tokens is turned down. */
  lemma OwnedTurnedDown(u: Setup, s: Sys, base: Base, blocks: Blocks, id: ReqId) returns (q: PlanRequest)
    requires Inv(s) && LawfulBase(s.v, u.maxRunning, base) && id in Decision(s.v, u.maxRunning, base).ids
    requires id in s.v.requests && Made(s.v.requests[id]) == 0 && id in s.v.leases.owned
    requires Schedules(u.config, u.maxRunning, s.v, base, blocks).1.Accepted?
    ensures var scheduling := Schedules(u.config, u.maxRunning, s.v, base, blocks).1;
            && scheduling.plan.Some? && ValidPlan(scheduling.plan.value)
            && q in scheduling.plan.value.requests && q.id == id && 0 <= q.row < BATCH && TurnedDown(s.d, q)
  {
    var (w, scheduling) := Schedules(u.config, u.maxRunning, s.v, base, blocks);
    OwnershipKept(u, s.v, base, blocks, id);
    RoundHolds(u, s.v, base, blocks);
    assert id in scheduling.out.ids;
    q := UnstartedScheduled(u, s.v, w, scheduling, blocks, id);
    assert Returned(q);
  }

  /** A round that schedules one fails because of it. */
  lemma OwnedFails(u: Setup, s: Sys, base: Base, blocks: Blocks, kv: KvImport, tiling: Tiling, ctx: Context, id: ReqId)
    requires Inv(s) && LawfulBase(s.v, u.maxRunning, base) && id in Decision(s.v, u.maxRunning, base).ids
    requires id in s.v.requests && Made(s.v.requests[id]) == 0 && id in s.v.leases.owned
    requires var scheduling := Schedules(u.config, u.maxRunning, s.v, base, blocks).1;
             scheduling.Accepted? && scheduling.plan.Some? ==> Sendable(scheduling.plan.value, kv, tiling)
    ensures var (w, scheduling) := Schedules(u.config, u.maxRunning, s.v, base, blocks);
            Fails(s.d, scheduling, kv, tiling, ctx) && AtFault(s.d, w, scheduling, id)
  {
    OwnershipKept(u, s.v, base, blocks, id);
    if Schedules(u.config, u.maxRunning, s.v, base, blocks).1.Accepted? {
      var q := OwnedTurnedDown(u, s, base, blocks, id);
      OfferedPlan(u, s, base, blocks);
      OfferedPositions(u, s, base, blocks);
      PlanRefused(s.d, Schedules(u.config, u.maxRunning, s.v, base, blocks).1.plan.value, kv, tiling, ctx);
    }
  }

  /** One the device does not own is at fault only with the warm-up's generation. */
  lemma UnownedBlameless(u: Setup, s: Sys, base: Base, blocks: Blocks, id: ReqId)
    requires Inv(s) && LawfulBase(s.v, u.maxRunning, base) && id in Decision(s.v, u.maxRunning, base).ids
    requires id in s.v.requests && Made(s.v.requests[id]) == 0 && id !in s.v.leases.owned
    ensures var (w, scheduling) := Schedules(u.config, u.maxRunning, s.v, base, blocks);
            AtFault(s.d, w, scheduling, id) ==> id in w.leases.generations && w.leases.generations[id] == WARMUP_GENERATION
  {
    var (w, scheduling) := Schedules(u.config, u.maxRunning, s.v, base, blocks);
    OwnershipKept(u, s.v, base, blocks, id);
    if scheduling.Accepted? && scheduling.plan.Some? {
      RoundHolds(u, s.v, base, blocks);
      assert RequestOk(s.v.requests[id]);
      var p := scheduling.plan.value;
      var q := UnstartedScheduled(u, s.v, w, scheduling, blocks, id);
      OfferedPlan(u, s, base, blocks);
      assert ValidRequest(p, q) && KnownToDevice(s.d, p, q);
      TakenOrTurnedDown(s.d, p, q);
      forall t | t in p.requests && t.id == id
        ensures t == q
      {
        OneEntry(p, q, t);
      }
    }
  }

  /** The only other way for the scheduler to raise is the end of the generation space. */
  lemma RefusedBy(u: Setup, v: View, base: Base, blocks: Blocks)
    requires Consistent(v) && LawfulBase(v, u.maxRunning, base) && Decision(v, u.maxRunning, base).ids != []
    requires Schedules(u.config, u.maxRunning, v, base, blocks).1.Refused?
    requires v.leases.next + |Unleased(v.leases, Decision(v, u.maxRunning, base).ids)| <= GENERATION_LIMIT
    ensures exists id :: id in Decision(v, u.maxRunning, base).ids && id in Schedules(u.config, u.maxRunning, v, base, blocks).0.leases.owned
  {
    var isolated, choice := Isolated(v, u.maxRunning), Decision(v, u.maxRunning, base);
    var w := Rescheduled(v, isolated, choice);
    if isolated {
      IsolatedChoice(v, u.maxRunning, base);
      IsolatedUnchecked(v, u.maxRunning, base);
    }
    PlannedOutcome(u.config, w.running, w.requests, v.leases, blocks, OutputOf(choice));
    PlannedLeases(u.config, w.running, w.requests, v.leases, blocks, OutputOf(choice));
    var (leases, outcome) := Planned(u.config, w.running, w.requests, v.leases, blocks, OutputOf(choice));
    VerdictRefused(outcome, OutputOf(choice), leases.owned, isolated);
  }

  lemma VerdictRefused(outcome: PlanOutcome, out: Output, owned: set<ReqId>, isolated: bool)
    requires Verdict(outcome, out, owned, isolated).Refused? && (outcome.Rejected? || (outcome.Built? && !isolated))
    ensures exists id :: id in out.ids && id in owned
  {
  }

  /** If nobody is at fault, the round does not fail. */
  lemma NobodyAtFault(u: Setup, s: Sys, base: Base, blocks: Blocks, kv: KvImport, tiling: Tiling, ctx: Context)
    requires Inv(s) && LawfulBase(s.v, u.maxRunning, base) && Decision(s.v, u.maxRunning, base).ids != []
    requires var scheduling := Schedules(u.config, u.maxRunning, s.v, base, blocks).1;
             scheduling.Accepted? && scheduling.plan.Some? ==> Sendable(scheduling.plan.value, kv, tiling)
    requires s.v.leases.next + |Unleased(s.v.leases, Decision(s.v, u.maxRunning, base).ids)| <= GENERATION_LIMIT
    requires var (w, scheduling) := Schedules(u.config, u.maxRunning, s.v, base, blocks);
             forall x | x in Decision(s.v, u.maxRunning, base).ids :: !AtFault(s.d, w, scheduling, x)
    ensures !Fails(s.d, Schedules(u.config, u.maxRunning, s.v, base, blocks).1, kv, tiling, ctx)
  {
    var (w, scheduling) := Schedules(u.config, u.maxRunning, s.v, base, blocks);
    if scheduling.Refused? {
      RefusedBy(u, s.v, base, blocks);
    } else if scheduling.plan.Some? {
      var p := scheduling.plan.value;
      RoundHolds(u, s.v, base, blocks);
      OfferedPlan(u, s, base, blocks);
      OfferedPositions(u, s, base, blocks);
      PlanRefused(s.d, p, kv, tiling, ctx);
      forall q | q in p.requests
        ensures !TurnedDown(s.d, q)
      {
        EntryScheduled(u, w, scheduling.out.ids, p, blocks, q);
        assert !AtFault(s.d, w, scheduling, q.id);
      }
    }
  }

  lemma EntryScheduled(u: Setup, w: View, ids: seq<ReqId>, p: Plan, blocks: Blocks, q: PlanRequest)
    requires AllLeased(w.requests, w.leases, ids) && Plannable(u.config, w.requests, w.leases, blocks, ids)
    requires p == PlanOf(u.config, w.requests, w.leases, blocks, ids) && q in p.requests
    ensures q.id in ids
  {
    var i: nat :| i < |p.requests| && p.requests[i] == q;
    EntryAt(u.config, w.requests, w.leases, blocks, ids, i);
  }

  // ----- runs

  /** Every lease the device owns, of whichever request, has its generation on its row beyond position 0. */
  lemma RunsLinger(u: Setup, start: Sys, events: seq<Event>)
    requires ValidConfig(u.config) && Fresh(start) && Run(u, start, events).Some?
    ensures var s := Run(u, start, events).value; AllLinger(s.v.leases, s.d)
  {
    RunsKeepStep(u, start, events);
  }

  /** In every reachable state, a request that has made no token yet, under an id used before or not, and any round that
      schedules it: the round fails because of it if the device still owns the id after the round's assignment. If not,
      and nobody else is at fault, it does not fail, unless generations run out or the request gets the warm-up's. */
  lemma ReusedIdFate(u: Setup, start: Sys, events: seq<Event>, id: ReqId, base: Base, blocks: Blocks, kv: KvImport, tiling: Tiling, ctx: Context)
    requires ValidConfig(u.config) && Fresh(start) && Run(u, start, events).Some?
    requires var s := Run(u, start, events).value;
             && Inv(s) && LawfulBase(s.v, u.maxRunning, base) && id in Decision(s.v, u.maxRunning, base).ids
             && id in s.v.requests && Made(s.v.requests[id]) == 0
             && var scheduling := Schedules(u.config, u.maxRunning, s.v, base, blocks).1;
                scheduling.Accepted? && scheduling.plan.Some? ==> Sendable(scheduling.plan.value, kv, tiling)
    ensures var s := Run(u, start, events).value;
            var (w, scheduling) := Schedules(u.config, u.maxRunning, s.v, base, blocks);
            var ids := Decision(s.v, u.maxRunning, base).ids;
            && (id in w.leases.owned <==> id in s.v.leases.owned)
            && (id in w.leases.owned ==> Fails(s.d, scheduling, kv, tiling, ctx) && AtFault(s.d, w, scheduling, id))
            && (id !in w.leases.owned
                && !(id in w.leases.generations && w.leases.generations[id] == WARMUP_GENERATION)
                && s.v.leases.next + |Unleased(s.v.leases, ids)| <= GENERATION_LIMIT
                && (forall x | x in ids && x != id :: !AtFault(s.d, w, scheduling, x)) ==>
                  !Fails(s.d, scheduling, kv, tiling, ctx))
  {
    var s := Run(u, start, events).value;
    var (w, scheduling) := Schedules(u.config, u.maxRunning, s.v, base, blocks);
    var ids := Decision(s.v, u.maxRunning, base).ids;
    OwnershipKept(u, s.v, base, blocks, id);
    if id in s.v.leases.owned {
      OwnedFails(u, s, base, blocks, kv, tiling, ctx, id);
    } else {
      UnownedBlameless(u, s, base, blocks, id);
      if !AtFault(s.d, w, scheduling, id) && s.v.leases.next + |Unleased(s.v.leases, ids)| <= GENERATION_LIMIT
         && forall x | x in ids && x != id :: !AtFault(s.d, w, scheduling, x)
      {
        NobodyAtFault(u, s, base, blocks, kv, tiling, ctx);
      }
    }
  }

  /** Any plan made without the request ends the device's ownership of its id, and its lease. */
  lemma OwnershipEnds(u: Setup, v: View, base: Base, blocks: Blocks, id: ReqId)
    requires Consistent(v) && LawfulBase(v, u.maxRunning, base) && id !in Decision(v, u.maxRunning, base).ids
    requires var scheduling := Schedules(u.config, u.maxRunning, v, base, blocks).1; scheduling.Accepted? && scheduling.plan.Some?
    ensures var w := Schedules(u.config, u.maxRunning, v, base, blocks).0; id !in w.leases.owned && id !in w.leases.rows
  {
    RoundHolds(u, v, base, blocks);
    assert id !in Elements(Decision(v, u.maxRunning, base).ids);
  }

  // ----- a run that gets there

  /** A request that is aborted after a device round leaves its id with the device. */
  lemma AbortedStaysOwned(u: Setup, d: Device, id: ReqId, q: Request, token: nat, tiling: Tiling) returns (s: Sys)
    requires ValidConfig(u.config) && u.config.capacity <= LOGICAL_CAPACITY && Fresh(Sys(NoRequests(NO_LEASES), d)) && OneToken(q)
    requires token < VOCAB_SIZE && token != q.eos && LoneSteps(u.config, q.maxTokens) < q.maxTokens
    ensures Leads(u, Sys(NoRequests(NO_LEASES), d), [Arrive(id, q), AnsweredRound(id, token, tiling), Abort(id)], s) && Inv(s)
    ensures id in s.v.leases.owned && id !in s.v.requests && s.v.running == [] && s.v.waiting == []
  {
    var start, s1, e := Sys(NoRequests(NO_LEASES), d), Sys(Waits(NO_LEASES, id, q), d), AnsweredRound(id, token, tiling);
    ArrivesRunnable(u, d, id, q);
    RoundGoes(u, s1, id, token, tiling);
    var s2 := After(u, s1, e);
    RunNext(u, start, [Arrive(id, q)], s1, e);
    AbortClears(u, s2, id);
    s := After(u, s2, Abort(id));
    RunNext(u, start, [Arrive(id, q)] + [e], s2, Abort(id));
    InARow(Arrive(id, q), e, Abort(id));
  }

  lemma InARow(a: Event, b: Event, c: Event)
    ensures [a] + [b] + [c] == [a, b, c]
  {
  }

  lemma AbortClears(u: Setup, s: Sys, id: ReqId)
    requires ValidConfig(u.config) && Inv(s) && Lone(s.v, id)
    ensures Enabled(u, s, Abort(id))
    ensures var s' := After(u, s, Abort(id));
            && Inv(s') && s'.v.leases == s.v.leases && id !in s'.v.requests && s'.v.running == [] && s'.v.waiting == []
  {
    EventKeeps(u, s, Abort(id));
    FilterOne(id, {id}, false);
  }

  /** The next request under that id is planned as the device's own, and the device refuses the plan. */
  lemma ReturnedRefused(u: Setup, d: Device, id: ReqId, q: Request, again: Request, token: nat, tiling: Tiling, ctx: Context)
    returns (s: Sys, p: Plan)
    requires ValidConfig(u.config) && u.config.capacity <= LOGICAL_CAPACITY && Fresh(Sys(NoRequests(NO_LEASES), d)) && OneToken(q) && OneToken(again)
    requires token < VOCAB_SIZE && token != q.eos && LoneSteps(u.config, q.maxTokens) < q.maxTokens
    ensures Leads(u, Sys(NoRequests(NO_LEASES), d), [Arrive(id, q), AnsweredRound(id, token, tiling), Abort(id), Arrive(id, again)], s)
    ensures Inv(s) && Schedule1(u, s.v, Decides(id), id)
    ensures var scheduling := Schedules(u.config, u.maxRunning, s.v, Decides(id), OneBlock).1; scheduling.Accepted? && scheduling.plan == Some(p)
    ensures Sendable(p, NoImport, tiling)
    ensures Epoch(s.d.(ready := true), Fed(ArgsOf(p, NoImport, tiling)), ctx).1.status == RESIDENT_CONTINUITY
  {
    var before := AbortedStaysOwned(u, d, id, q, token, tiling);
    var events := [Arrive(id, q), AnsweredRound(id, token, tiling), Abort(id)];
    EventKeeps(u, before, Arrive(id, again));
    s := After(u, before, Arrive(id, again));
    RunNext(u, Sys(NoRequests(NO_LEASES), d), events, before, Arrive(id, again));
    assert events + [Arrive(id, again)] == [Arrive(id, q), AnsweredRound(id, token, tiling), Abort(id), Arrive(id, again)];
    p := ReturnedPlan(u, s, id, tiling);
    OwnedFails(u, s, Decides(id), OneBlock, NoImport, tiling, ctx, id);
  }

  lemma ReturnedPlan(u: Setup, s: Sys, id: ReqId, tiling: Tiling) returns (p: Plan)
    requires Inv(s) && Within(u, s.v, id) && id in s.v.leases.owned && Made(s.v.requests[id]) == 0
    ensures Schedule1(u, s.v, Decides(id), id)
    ensures var scheduling := Schedules(u.config, u.maxRunning, s.v, Decides(id), OneBlock).1; scheduling.Accepted? && scheduling.plan == Some(p)
    ensures Sendable(p, NoImport, tiling)
  {
    var w, q;
    w, p, q := LonePlanIs(u, s.v, id);
    EntryInRange(u, s.v, id, w.leases, p, q);
    LoneArgs(p, q, tiling);
  }

  /** The smallest case. */
  lemma IdComesBack(tiling: Tiling, ctx: Context) returns (s: Sys, p: Plan)
    ensures var u, q := Setup(Config(1, 8), 4), Request(1, [0], 0, 8, 9, true);
            && Leads(u, Sys(NoRequests(NO_LEASES), Initial()), [Arrive("a", q), AnsweredRound("a", 0, tiling), Abort("a"), Arrive("a", q)], s)
            && Inv(s) && Schedule1(u, s.v, Decides("a"), "a")
            && Schedules(u.config, 4, s.v, Decides("a"), OneBlock).1.Accepted?
            && Schedules(u.config, 4, s.v, Decides("a"), OneBlock).1.plan == Some(p)
    ensures Epoch(s.d.(ready := true), Fed(ArgsOf(p, NoImport, tiling)), ctx).1.status == RESIDENT_CONTINUITY
  {
    var q := Request(1, [0], 0, 8, 9, true);
    s, p := ReturnedRefused(Setup(Config(1, 8), 4), Initial(), "a", q, q, 0, tiling, ctx);
  }
}
