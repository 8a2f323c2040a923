/** What every round of the scheduler keeps: safe leases, valid plans, and isolated host steps. */
module SchedulerSafety {
  import opened Layout
  import opened Contract
  import opened RowLeases
  import opened Scheduler

  // ----- plans

  lemma EntryValid(c: Config, requests: Requests, l: Leases, blocks: Blocks, ids: seq<ReqId>, id: ReqId, steps: int)
    requires Safe(l) && id in l.rows && Enterable(requests, l, blocks, id) && Fits(c, requests[id], steps, blocks(id))
    ensures var q := EntryOf(l, id, requests[id], blocks(id));
            && q.generation > 0 && 0 <= q.row < BATCH && q.length == q.position + 1
            && (q.importRequired ==> q.owner.HostOwned?) && q.position + steps <= c.capacity
  {
    assert LeaseOk(l, id);
  }

  /** A plan built from safe leases passes its own validation, so building one never raises. */
  lemma PlanIsValid(c: Config, requests: Requests, l: Leases, blocks: Blocks, ids: seq<ReqId>)
    requires Safe(l) && Distinct(ids) && 1 <= |ids| <= BATCH && AllLeased(requests, l, ids) && Plannable(c, requests, l, blocks, ids)
    ensures ValidPlan(PlanOf(c, requests, l, blocks, ids))
  {
    var p := PlanOf(c, requests, l, blocks, ids);
    var steps := EpochSteps(c, requests, ids);
    forall i | 0 <= i < |ids|
      ensures LeaseOk(l, ids[i]) && ValidRequest(p, p.requests[i])
    {
      assert ids[i] in ids;
      EntryValid(c, requests, l, blocks, ids, ids[i], steps);
    }
    forall i, j | 0 <= i < j < |ids|
      ensures p.requests[i].row != p.requests[j].row && p.requests[i].generation != p.requests[j].generation
    {
      assert Apart(l, ids[i], ids[j]);
    }
  }

  /** For a batch with distinct requests nothing goes wrong but the end of the generation space. */
  lemma PlannedOutcome(c: Config, running: seq<ReqId>, requests: Requests, l: Leases, blocks: Blocks, out: Output)
    requires Safe(l) && Distinct(out.ids) && forall id | id in out.ids :: id in out.counts && id in requests
    ensures var (m, outcome) := Planned(c, running, requests, l, blocks, out);
            && Safe(m) && (outcome.Built? || outcome.Rejected? || outcome.GenerationsGone?)
            && (outcome.GenerationsGone? <==> PreChecks(running, out) && l.next + |Unleased(l, out.ids)| > GENERATION_LIMIT)
            && (outcome.Built? ==> ValidPlan(outcome.plan))
  {
    if PreChecks(running, out) {
      AssignLeases(l, requests, out.ids);
      AssignSafe(l, out.ids);
      RowsSuffice(l, out.ids);
      KeptSafe(l, Elements(out.ids));
      GenerationsSuffice(l, out.ids);
      if Assign(l, out.ids).Assigned? {
        var m := Assign(l, out.ids).leases;
        if Plannable(c, requests, m, blocks, out.ids) { PlanIsValid(c, requests, m, blocks, out.ids); }
      }
    }
  }

  // ----- isolation

  /** In an isolated round the base scheduler cannot reach a paused request. */
  lemma IsolatedChoice(v: View, maxRunning: int, base: Base)
    requires Consistent(v) && LawfulBase(v, maxRunning, base) && Isolated(v, maxRunning)
    ensures forall id | id in Decision(v, maxRunning, base).ids :: id !in Paused(v, true)
    ensures exists id :: id in v.running && id in v.leases.owned && id !in Decision(v, maxRunning, base).ids
  {
    var choice := Decision(v, maxRunning, base);
    forall id | id in choice.ids
      ensures id !in Paused(v, true) && (id in v.leases.owned ==> id !in v.running)
    {
      if id in choice.admitted { assert id in v.waiting; }
    }
  }

  /** It never schedules everyone. */
  lemma IsolatedUnchecked(v: View, maxRunning: int, base: Base)
    requires Consistent(v) && LawfulBase(v, maxRunning, base) && Isolated(v, maxRunning)
    ensures var choice := Decision(v, maxRunning, base); !PreChecks(Rescheduled(v, true, choice).running, OutputOf(choice))
  {
    IsolatedChoice(v, maxRunning, base);
    var choice := Decision(v, maxRunning, base);
    var w := Rescheduled(v, true, choice);
    var id :| id in v.running && id in v.leases.owned && id !in choice.ids;
    assert id in Paused(v, true) && id in w.running;
    assert id in Elements(w.running) && id !in Elements(choice.ids);
  }

  /** An isolated host step never has a plan, changes no lease, and touches no request the device owns: their
      tokens, computed counts and places in the running list stay. */
  lemma IsolatedRound(c: Config, maxRunning: int, v: View, base: Base, blocks: Blocks)
    requires Consistent(v) && LawfulBase(v, maxRunning, base) && Isolated(v, maxRunning)
    ensures var (w, s) := Schedules(c, maxRunning, v, base, blocks);
            && w.leases == v.leases
            && (s.Accepted? ==> s.plan.None? && s.isolated && s.out.ids != [])
            && (forall id | id in v.requests && id in v.running && id in v.leases.owned ::
                  id in w.requests && w.requests[id] == v.requests[id] && id in w.running)
            && Paused(v, true) <= w.running
  {
    IsolatedChoice(v, maxRunning, base);
    IsolatedUnchecked(v, maxRunning, base);
  }

  /** A list is its two filters, in number and, element by element, in order. */
  lemma {:induction false} FilterSplits(ids: seq<ReqId>, s: set<ReqId>)
    ensures |Filter(ids, s, true)| + |Filter(ids, s, false)| == |ids|
  {
    if ids != [] { FilterSplits(ids[..|ids| - 1], s); }
  }

  lemma {:induction false} FilterJoins(a: seq<ReqId>, b: seq<ReqId>, s: set<ReqId>, keep: bool)
    ensures Filter(a + b, s, keep) == Filter(a, s, keep) + Filter(b, s, keep)
  {
    if b == [] {
      assert a + b == a;
    } else {
      assert (a + b)[..|a + b| - 1] == a + b[..|b| - 1];
      FilterJoins(a, b[..|b| - 1], s, keep);
    }
  }

  lemma FilterKeepsOrder(a: seq<ReqId>, id: ReqId, b: seq<ReqId>, s: set<ReqId>, keep: bool)
    requires (id in s) == keep
    ensures Filter(a + [id] + b, s, keep) == Filter(a, s, keep) + [id] + Filter(b, s, keep)
  {
    FilterJoins(a + [id], b, s, keep);
    FilterJoins(a, [id], s, keep);
    assert [id][..0] == [];
    assert Filter([], s, keep) == [];
  }

  /** A host request that cannot decode next to the device's: it is ineligible, or its prompt is not computed. */
  ghost predicate InPrefill(v: View, id: ReqId) {
    id in v.requests && (!v.requests[id].eligible || v.requests[id].computed < v.requests[id].prompt)
  }

  /** A waiting request that needs host steps first. */
  ghost predicate NeedsPrefill(v: View, id: ReqId) { id in v.requests && (v.requests[id].prompt > 1 || !v.requests[id].eligible) }

  /** Something only the host can do is due while the device has requests running. */
  ghost predicate HostIsDue(v: View, maxRunning: int) {
    && (exists id :: id in v.running && id in v.leases.owned)
    && ((exists id :: id in v.running && id !in v.leases.owned && InPrefill(v, id))
        || (|v.running| < maxRunning && exists id :: id in v.waiting && NeedsPrefill(v, id)))
  }

  lemma RunningDue(v: View)
    requires IsRunning(v.running, v.requests)
    ensures (exists id :: id in v.running && id !in v.leases.owned && InPrefill(v, id)) <==>
            (exists id :: id in v.running && id !in v.leases.owned && !v.requests[id].eligible)
            || (exists id :: id in v.running && id !in v.leases.owned && v.requests[id].computed < v.requests[id].prompt)
  {
    if id :| id in v.running && id !in v.leases.owned && !v.requests[id].eligible { assert InPrefill(v, id); }
    if id :| id in v.running && id !in v.leases.owned && v.requests[id].computed < v.requests[id].prompt { assert InPrefill(v, id); }
  }

  lemma WaitingDue(v: View)
    requires IsRunning(v.waiting, v.requests)
    ensures (exists id :: id in v.waiting && NeedsPrefill(v, id)) <==>
            exists id :: id in v.waiting && (v.requests[id].prompt > 1 || !v.requests[id].eligible)
  {
    if id :| id in v.waiting && (v.requests[id].prompt > 1 || !v.requests[id].eligible) { assert NeedsPrefill(v, id); }
  }

  lemma DueIsIsolated(v: View, maxRunning: int)
    requires IsRunning(v.running, v.requests) && IsRunning(v.waiting, v.requests)
    ensures HostIsDue(v, maxRunning) <==> Isolated(v, maxRunning)
  {
    RunningDue(v);
    WaitingDue(v);
  }

  /** What the base scheduler is shown: everyone, or, when the host is due, exactly the running requests the device does
      not own, with the slots of the others taken off. */
  lemma BaseSees(v: View, maxRunning: int, base: Base) returns (seen: seq<ReqId>)
    requires IsRunning(v.running, v.requests) && IsRunning(v.waiting, v.requests)
    ensures Decision(v, maxRunning, base) == base(seen, maxRunning - (|v.running| - |seen|))
    ensures if HostIsDue(v, maxRunning) then seen == Filter(v.running, v.leases.owned, false) && forall id | id in seen :: id !in v.leases.owned
            else seen == v.running
  {
    DueIsIsolated(v, maxRunning);
    seen := Visible(v, Isolated(v, maxRunning));
    FilterSplits(v.running, v.leases.owned);
  }

  /** When the host is due, a round is accepted exactly if it schedules someone, and nobody the device owns. It then has no
      plan, changes no lease, and leaves the device's requests as they are. */
  lemma HostRoundGoes(c: Config, maxRunning: int, v: View, base: Base, blocks: Blocks)
    requires Consistent(v) && LawfulBase(v, maxRunning, base) && HostIsDue(v, maxRunning)
    ensures var ids := Decision(v, maxRunning, base).ids;
            var (w, s) := Schedules(c, maxRunning, v, base, blocks);
            && (s.Accepted? <==> ids != [] && forall id | id in ids :: id !in v.leases.owned)
            && (s.Accepted? ==> s.out.ids == ids && s.plan.None?)
            && w.leases == v.leases
            && forall id | id in v.running && id in v.leases.owned ::
                 id !in ids ==> id in w.running && id in w.requests && w.requests[id] == v.requests[id]
  {
    DueIsIsolated(v, maxRunning);
    IsolatedChoice(v, maxRunning, base);
    IsolatedUnchecked(v, maxRunning, base);
    var choice := Decision(v, maxRunning, base);
    IsolatedVerdict(OutputOf(choice), v.leases.owned);
    assert Planned(c, Rescheduled(v, true, choice).running, Rescheduled(v, true, choice).requests, v.leases, blocks, OutputOf(choice))
           == (v.leases, Rejected);
    forall id | id in v.running && id in v.leases.owned
      ensures id in Paused(v, true)
    {
    }
  }

  lemma IsolatedVerdict(out: Output, owned: set<ReqId>)
    ensures var s := Verdict(Rejected, out, owned, true);
            (s.Accepted? <==> forall id | id in out.ids :: id !in owned) && (s.Accepted? ==> s.out == out && s.plan.None?)
  {
  }

  /** Whatever the round, the leases stay safe, and no request the device owns is ever given to the host. */
  lemma RoundSafe(c: Config, maxRunning: int, v: View, base: Base, blocks: Blocks)
    requires Consistent(v) && LawfulBase(v, maxRunning, base)
    ensures var (w, s) := Schedules(c, maxRunning, v, base, blocks);
            && Safe(w.leases)
            && (s.Accepted? && s.plan.None? ==> forall id | id in s.out.ids :: id !in w.leases.owned)
            && (s.Accepted? && s.plan.Some? ==> ValidPlan(s.plan.value) && !s.isolated)
  {
    var isolated := Isolated(v, maxRunning);
    var choice := Decision(v, maxRunning, base);
    var w := Rescheduled(v, isolated, choice);
    PlannedOutcome(c, w.running, w.requests, v.leases, blocks, OutputOf(choice));
    var (m, outcome) := Planned(c, w.running, w.requests, v.leases, blocks, OutputOf(choice));
    VerdictSafe(outcome, OutputOf(choice), m.owned, isolated);
  }

  lemma VerdictSafe(outcome: PlanOutcome, out: Output, owned: set<ReqId>, isolated: bool)
    requires outcome.Built? ==> ValidPlan(outcome.plan)
    ensures var s := Verdict(outcome, out, owned, isolated);
            && (s.Accepted? && s.plan.None? ==> forall id | id in s.out.ids :: id !in owned)
            && (s.Accepted? && s.plan.Some? ==> ValidPlan(s.plan.value) && !s.isolated)
  {
  }
}
