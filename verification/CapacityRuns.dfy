/** How a lone request ends: it finishes if and only if its budget fits the capacity, and otherwise the scheduler raises
    after as many device rounds as fit. */
module CapacityRuns {
  import opened Layout
  import opened Flow
  import opened EpochSpec
  import opened Bridge
  import opened Contract
  import opened RowLeases
  import opened Scheduler
  import opened SchedulerSafety
  import opened Sidecar
  import opened Lockstep
  import opened LockstepRuns
  import opened EpochSchedule
  import opened LoneRuns

  /** A request of which the base scheduler has one token to schedule, and that could be planned but for the capacity. */
  ghost predicate Plannish(c: Config, q: Request, groups: seq<seq<int>>) {
    && RequestOk(q) && q.computed == |q.tokens| - 1 && q.eligible && q.prompt <= c.capacity && (q.prompt > 1 ==> Made(q) >= 1)
    && |groups| == 1 && groups[0] != []
  }

  /** The base scheduler schedules the request, and nothing unusual. */
  ghost predicate Schedule1(u: Setup, v: View, base: Base, id: ReqId) {
    && Consistent(v) && LawfulBase(v, u.maxRunning, base)
    && Decision(v, u.maxRunning, base).ids == [id] && Decision(v, u.maxRunning, base).plain
  }

  /** The leases of a round with the request alone: its own is kept, or it gets one. */
  lemma LoneAssign(l: Leases, requests: Requests, id: ReqId)
    requires Safe(l) && (id in l.rows || l.next < GENERATION_LIMIT) && id in requests
    ensures Assign(l, [id]).Assigned? && AllLeased(requests, Assign(l, [id]).leases, [id])
    ensures Safe(Assign(l, [id]).leases) && (id in Assign(l, [id]).leases.owned <==> id in l.owned)
  {
    AssignSafe(l, [id]);
    AssignLeases(l, requests, [id]);
    RowsSuffice(l, [id]);
    GenerationsSuffice(l, [id]);
    LoneUnleased(l, id);
    assert id in [id] && id in Elements([id]);
  }

  lemma LoneUnleased(l: Leases, id: ReqId)
    ensures |Unleased(l, [id])| == if id in l.rows then 0 else 1
  {
    assert Unleased(l, [id]) == if id in l.rows then {} else {id};
  }

  lemma LonePlanOutcome(c: Config, requests: Requests, l: Leases, blocks: Blocks, id: ReqId, q: Request)
    requires ValidConfig(c) && Safe(l) && AllLeased(requests, l, [id]) && Plannish(c, q, blocks(id))
    requires requests[id] == Scheduled(q, 1)
    ensures PlanOutcomeOf(c, requests, l, blocks, [id]).Built? <==> |q.tokens| - 1 + LoneSteps(c, Remaining(q)) <= c.capacity
    ensures PlanOutcomeOf(c, requests, l, blocks, [id]).Built? || PlanOutcomeOf(c, requests, l, blocks, [id]).Rejected?
  {
    var ids := [id];
    LoneRequest(c, requests, id);
    assert Remaining(requests[id]) == Remaining(q);
    assert Ready(c, requests[id], id in l.owned, blocks(id));
    assert Plannable(c, requests, l, blocks, ids) <==> |q.tokens| - 1 + LoneSteps(c, Remaining(q)) <= c.capacity by {
      assert id in ids;
      assert Fits(c, requests[id], EpochSteps(c, requests, ids), blocks(id)) <==> |q.tokens| - 1 + LoneSteps(c, Remaining(q)) <= c.capacity;
    }
    if Plannable(c, requests, l, blocks, ids) { PlanIsValid(c, requests, l, blocks, ids); }
  }

  /** What planning a lone request comes to. */
  lemma LonePlanned(c: Config, requests: Requests, l: Leases, blocks: Blocks, out: Output, id: ReqId, q: Request)
    requires ValidConfig(c) && Safe(l) && Plannish(c, q, blocks(id)) && (id in l.rows || l.next < GENERATION_LIMIT)
    requires out.ids == [id] && id in out.counts && out.counts[id] == 1 && out.plain && id in requests && requests[id] == Scheduled(q, 1)
    ensures var (m, outcome) := Planned(c, [id], requests, l, blocks, out);
            && (id in m.owned <==> id in l.owned)
            && if |q.tokens| - 1 + LoneSteps(c, Remaining(q)) <= c.capacity then outcome.Built? else outcome.Rejected?
  {
    LoneAssign(l, requests, id);
    LonePlanOutcome(c, requests, Assign(l, [id]).leases, blocks, id, q);
    assert PreChecks([id], out);
  }

  /** The round that schedules a lone request: a plan, if the next epoch fits; otherwise an exception if the device owns
      it, and a host step if not. */
  lemma LoneVerdict(u: Setup, v: View, base: Base, blocks: Blocks, id: ReqId)
    requires ValidConfig(u.config) && Schedule1(u, v, base, id) && Lone(v, id) && Plannish(u.config, v.requests[id], blocks(id))
    requires id in v.leases.rows || v.leases.next < GENERATION_LIMIT
    ensures var q, s := v.requests[id], Schedules(u.config, u.maxRunning, v, base, blocks).1;
            if |q.tokens| - 1 + LoneSteps(u.config, Remaining(q)) <= u.config.capacity then s.Accepted? && s.plan.Some?
            else if id in v.leases.owned then s.Refused?
            else s.Accepted? && s.plan.None?
  {
    LoneSchedules(u, v, base, blocks, id);
    var choice := Decision(v, u.maxRunning, base);
    var w := Rescheduled(v, false, choice);
    assert id in choice.ids;
    LonePlanned(u.config, w.requests, v.leases, blocks, OutputOf(choice), id, v.requests[id]);
    SameVerdict(Planned(u.config, [id], w.requests, v.leases, blocks, OutputOf(choice)).1, OutputOf(choice),
                Planned(u.config, [id], w.requests, v.leases, blocks, OutputOf(choice)).0.owned, v.leases.owned, id);
  }

  lemma SameVerdict(outcome: PlanOutcome, out: Output, owned: set<ReqId>, before: set<ReqId>, id: ReqId)
    requires (outcome.Built? || outcome.Rejected?) && out.ids == [id] && (id in owned <==> id in before)
    ensures var s := Verdict(outcome, out, owned, false);
            if outcome.Built? then s.Accepted? && s.plan.Some? else if id in before then s.Refused? else s.Accepted? && s.plan.None?
  {
    assert id in out.ids;
  }

  // ----- runs

  /** The request goes on alone, or it is done and its budget has fitted the capacity. */
  ghost predicate FitsOn(c: Config, v: View, id: ReqId, q0: Request) {
    if id in v.requests then
      var q := v.requests[id];
      Lone(v, id) && RequestOk(q) && q == q0.(tokens := q.tokens, computed := q.computed) && |q.tokens| >= |q0.tokens|
    else v.running == [] && v.waiting == [] && Admissible(c, q0)
  }

  /** After a device round the device holds whoever is not done. */
  ghost predicate Later(c: Config, v: View, id: ReqId, q0: Request) {
    FitsOn(c, v, id, q0) && (id in v.requests ==> Resident(v, id))
  }

  /** The epoch of an accepted plan fits the capacity. */
  lemma PlanFits(u: Setup, s: Sys, e: Event, id: ReqId)
    requires ValidConfig(u.config) && e.DeviceRound? && Inv(s) && DeviceEnabled(u, s, e) && Lone(s.v, id)
    ensures var q := s.v.requests[id]; Remaining(q) >= 1 && |q.tokens| - 1 + LoneSteps(u.config, Remaining(q)) <= u.config.capacity
  {
    var (w, scheduling) := Schedules(u.config, u.maxRunning, s.v, e.base, e.blocks);
    RoundHolds(u, s.v, e.base, e.blocks);
    LoneScheduled(u, s.v, e.base, e.blocks, id);
    assert id in scheduling.out.ids && RequestScheduled(s.v, w, scheduling.out, id);
    FitsOfPlan(u.config, s.v, w, scheduling.out, e.blocks, id);
  }

  lemma FitsOfPlan(c: Config, v: View, w: View, out: Output, blocks: Blocks, id: ReqId)
    requires ValidConfig(c) && out.ids == [id] && RequestScheduled(v, w, out, id)
    requires AllLeased(w.requests, w.leases, out.ids) && Plannable(c, w.requests, w.leases, blocks, out.ids)
    ensures var q := v.requests[id]; Remaining(q) >= 1 && |q.tokens| - 1 + LoneSteps(c, Remaining(q)) <= c.capacity
  {
    assert id in out.ids;
    assert Ready(c, w.requests[id], id in w.leases.owned, blocks(id));
    LoneRequest(c, w.requests, id);
    assert Fits(c, w.requests[id], EpochSteps(c, w.requests, [id]), blocks(id));
  }

  lemma WentOnFits(c: Config, v: View, v': View, id: ReqId, q0: Request, made: seq<int>)
    requires ValidConfig(c) && FitsOn(c, v, id, q0) && id in v.requests && Remaining(v.requests[id]) >= 1
    requires |v.requests[id].tokens| - 1 + LoneSteps(c, Remaining(v.requests[id])) <= c.capacity
    requires WentOn(v, v', id, made) && |made| == LoneSteps(c, Remaining(v.requests[id])) && forall x | x in v'.requests :: RequestOk(v'.requests[x])
    ensures Later(c, v', id, q0)
  {
  }

  lemma RoundFits(u: Setup, s: Sys, e: Event, id: ReqId, q0: Request)
    requires ValidConfig(u.config) && e.DeviceRound? && Inv(s) && DeviceEnabled(u, s, e) && FitsOn(u.config, s.v, id, q0)
    requires id in s.v.requests ==> s.v.requests[id].eos !in MadeIn(u, s, e, id)
    ensures Later(u.config, AfterDevice(u, s, e).v, id, q0)
  {
    if id !in s.v.requests { NothingPlanned(u, s.v, e.base, e.blocks); }
    PlanFits(u, s, e, id);
    LoneRound(u, s, e, id);
    RequestsOk(u, s, e);
    WentOnFits(u.config, s.v, AfterDevice(u, s, e).v, id, q0, MadeIn(u, s, e, id));
  }

  lemma RequestsOk(u: Setup, s: Sys, e: Event)
    requires ValidConfig(u.config) && e.DeviceRound? && Inv(s) && DeviceEnabled(u, s, e)
    ensures forall x | x in AfterDevice(u, s, e).v.requests :: RequestOk(AfterDevice(u, s, e).v.requests[x])
  {
    DeviceRoundKeeps(u, s, e);
  }

  lemma {:induction false} RunFits(u: Setup, start: Sys, events: seq<Event>, id: ReqId, q0: Request)
    requires ValidConfig(u.config) && FitsOn(u.config, start.v, id, q0)
    requires Run(u, start, events).Some? && Eosless(u, start, events, id)
    ensures FitsOn(u.config, Run(u, start, events).value.v, id, q0)
    ensures events != [] ==> Later(u.config, Run(u, start, events).value.v, id, q0)
    decreases |events|
  {
    if events != [] {
      var before := events[..|events| - 1];
      RunFits(u, start, before, id, q0);
      RoundFits(u, Run(u, start, before).value, events[|events| - 1], id, q0);
    }
  }

  /** The next epoch of the request would go beyond the capacity. */
  predicate Full(c: Config, q: Request)
    requires ValidConfig(c) && Remaining(q) >= 1
  {
    |q.tokens| - 1 + LoneSteps(c, Remaining(q)) > c.capacity
  }

  lemma AdmissibleNeverFull(c: Config, q: Request)
    requires ValidConfig(c) && RequestOk(q) && Admissible(c, q)
    ensures !Full(c, q)
  {
  }

  /** The next round schedules the request. */
  ghost predicate NextRound(u: Setup, v: View, base: Base, blocks: Blocks, id: ReqId) {
    Schedule1(u, v, base, id) && |blocks(id)| == 1 && blocks(id)[0] != []
  }

  lemma FateNow(u: Setup, v: View, id: ReqId, q0: Request, base: Base, blocks: Blocks)
    requires ValidConfig(u.config) && FitsOn(u.config, v, id, q0) && q0.eligible && q0.prompt <= u.config.capacity
    requires Safe(v.leases) && Resident(v, id) && NextRound(u, v, base, blocks, id)
    ensures var s := Schedules(u.config, u.maxRunning, v, base, blocks).1;
            if Full(u.config, v.requests[id]) then s.Refused? else s.Accepted? && s.plan.Some?
  {
    LoneVerdict(u, v, base, blocks, id);
  }

  /** A lone request that does not make its EOS finishes if and only if prompt + max_tokens - 1 is within the capacity.
      If it is, no round raises, and it is gone after exactly R / M + popcount(R mod M) device rounds. If it is not, it
      never gets that far, and the round that raises is the first whose epoch would go beyond the capacity. */
  lemma LoneFate(u: Setup, start: Sys, events: seq<Event>, id: ReqId, base: Base, blocks: Blocks)
    requires ValidConfig(u.config) && Inv(start) && Lone(start.v, id) && start.v.requests[id].eligible
    requires start.v.requests[id].prompt <= u.config.capacity
    requires Run(u, start, events).Some? && Eosless(u, start, events, id) && (events != [] || Resident(start.v, id))
    ensures var c, q, v := u.config, start.v.requests[id], Run(u, start, events).value.v;
            var rounds := Remaining(q) / c.maxSteps + Popcount(Remaining(q) % c.maxSteps);
            && Remaining(q) >= 1 && |events| <= rounds && (id !in v.requests <==> |events| == rounds)
            && (id !in v.requests ==> Admissible(c, q))
            && (id in v.requests ==> Remaining(v.requests[id]) >= 1)
            && (id in v.requests && Admissible(c, q) ==> !Full(c, v.requests[id]))
            && (id in v.requests && NextRound(u, v, base, blocks, id) ==>
                  var scheduling := Schedules(c, u.maxRunning, v, base, blocks).1;
                  if Full(c, v.requests[id]) then scheduling.Refused? else scheduling.Accepted? && scheduling.plan.Some?)
  {
    var q := start.v.requests[id];
    assert RequestOk(q);
    LoneRequestRounds(u, start, events, id);
    RunFits(u, start, events, id, q);
    RunsStay(u, start, events);
    var v := Run(u, start, events).value.v;
    if id in v.requests {
      if Admissible(u.config, q) { AdmissibleNeverFull(u.config, v.requests[id]); }
      if NextRound(u, v, base, blocks, id) { FateNow(u, v, id, q, base, blocks); }
    }
  }
}
