/** When a batch of up to four requests gets a plan, and what is in it. */
module PlanConditions {
  import opened Layout
  import opened Contract
  import opened RowLeases
  import opened Scheduler
  import opened SchedulerSafety
  import opened EpochSchedule

  /** The longest of the four epoch lengths that the configuration and everybody's budget allow. */
  ghost predicate LongestEpoch(c: Config, requests: Requests, ids: seq<ReqId>, steps: int) {
    && AllowedEpoch(c, requests, ids, steps)
    && forall longer :: longer > steps ==> !AllowedEpoch(c, requests, ids, longer)
  }

  ghost predicate AllowedEpoch(c: Config, requests: Requests, ids: seq<ReqId>, steps: int) {
    steps in {1, 2, 4, 8} && steps <= c.maxSteps && forall id | id in ids :: id in requests && steps <= Remaining(requests[id])
  }

  /** A request that can be planned for that many steps: eligible, past its prompt, computed up to its last token, within
      the capacity to the end of the epoch, and with its KV in one group of blocks. */
  ghost predicate Decodable(c: Config, q: Request, groups: seq<seq<int>>, steps: int) {
    && q.eligible && q.prompt <= c.capacity && (q.prompt <= 1 || Made(q) != 0)
    && q.computed == |q.tokens| >= 1 && |q.tokens| - 1 + steps <= c.capacity
    && |groups| == 1 && groups[0] != []
  }

  /** One token of every running request is scheduled, of at most four of them, and nothing else. */
  ghost predicate DecodeOnly(running: seq<ReqId>, out: Output) {
    && 1 <= |out.ids| <= 4 && out.plain
    && (forall id | id in out.ids :: id in out.counts && out.counts[id] == 1)
    && forall id :: id in out.ids <==> id in running
  }

  lemma ChecksMean(running: seq<ReqId>, out: Output)
    requires forall id | id in out.ids :: id in out.counts
    ensures PreChecks(running, out) <==> DecodeOnly(running, out)
  {
    assert forall id :: id in Elements(out.ids) <==> id in out.ids;
    assert forall id :: id in Elements(running) <==> id in running;
    if DecodeOnly(running, out) { assert Elements(out.ids) == Elements(running); }
  }

  lemma EpochIsLongest(c: Config, requests: Requests, ids: seq<ReqId>)
    requires ValidConfig(c) && ids != [] && forall id | id in ids :: id in requests && Remaining(requests[id]) >= 1
    ensures LongestEpoch(c, requests, ids, EpochSteps(c, requests, ids))
  {
    StepsWithinBudgets(c, requests, ids);
    var steps := EpochSteps(c, requests, ids);
    forall longer | longer > steps
      ensures !AllowedEpoch(c, requests, ids, longer)
    {
      if longer in {1, 2, 4, 8} && 2 * steps <= c.maxSteps {
        var id :| id in ids && 2 * steps > Remaining(requests[id]);
      }
    }
  }

  lemma OneLongest(c: Config, requests: Requests, ids: seq<ReqId>, a: int, b: int)
    requires LongestEpoch(c, requests, ids, a) && LongestEpoch(c, requests, ids, b)
    ensures a == b
  {
  }

  lemma ReadyMeans(c: Config, q: Request, owned: bool, groups: seq<seq<int>>, steps: int)
    requires steps >= 1
    ensures Ready(c, q, owned, groups) && Fits(c, q, steps, groups) <==> Remaining(q) >= 1 && Decodable(c, q, groups, steps)
  {
  }

  lemma PlannableMeans(c: Config, requests: Requests, l: Leases, blocks: Blocks, ids: seq<ReqId>)
    requires ValidConfig(c) && ids != [] && forall id | id in ids :: id in requests
    ensures Plannable(c, requests, l, blocks, ids) <==>
            exists steps :: LongestEpoch(c, requests, ids, steps) && forall id | id in ids :: Decodable(c, requests[id], blocks(id), steps)
    ensures Plannable(c, requests, l, blocks, ids) ==> LongestEpoch(c, requests, ids, EpochSteps(c, requests, ids))
  {
    if Plannable(c, requests, l, blocks, ids) {
      forall id | id in ids
        ensures Remaining(requests[id]) >= 1
      {
        assert Ready(c, requests[id], id in l.owned, blocks(id));
      }
      EpochIsLongest(c, requests, ids);
      var steps := EpochSteps(c, requests, ids);
      forall id | id in ids
        ensures Decodable(c, requests[id], blocks(id), steps)
      {
        assert Ready(c, requests[id], id in l.owned, blocks(id)) && Fits(c, requests[id], steps, blocks(id));
        ReadyMeans(c, requests[id], id in l.owned, blocks(id), steps);
      }
    } else if steps :| LongestEpoch(c, requests, ids, steps) && forall id | id in ids :: Decodable(c, requests[id], blocks(id), steps) {
      EpochIsLongest(c, requests, ids);
      OneLongest(c, requests, ids, steps, EpochSteps(c, requests, ids));
      forall id | id in ids
        ensures Ready(c, requests[id], id in l.owned, blocks(id)) && Fits(c, requests[id], steps, blocks(id))
      {
        ReadyMeans(c, requests[id], id in l.owned, blocks(id), steps);
      }
      assert false;
    }
  }

  /** A plan is made exactly for a batch of at most four running requests, each scheduled for one token and decodable for the
      longest common epoch, if the generations suffice. */
  lemma PlanMade(c: Config, running: seq<ReqId>, requests: Requests, l: Leases, blocks: Blocks, out: Output)
    requires ValidConfig(c) && Safe(l) && Distinct(out.ids) && forall id | id in out.ids :: id in out.counts && id in requests
    ensures Planned(c, running, requests, l, blocks, out).1.Built? <==>
            && DecodeOnly(running, out) && l.next + |Unleased(l, out.ids)| <= GENERATION_LIMIT
            && exists steps :: LongestEpoch(c, requests, out.ids, steps) && forall id | id in out.ids :: Decodable(c, requests[id], blocks(id), steps)
  {
    ChecksMean(running, out);
    PlannedOutcome(c, running, requests, l, blocks, out);
    if PreChecks(running, out) {
      PlannableMeans(c, requests, l, blocks, out.ids);
      if l.next + |Unleased(l, out.ids)| <= GENERATION_LIMIT { AssignedOutcome(c, requests, l, blocks, out.ids); }
    }
  }

  lemma AssignedOutcome(c: Config, requests: Requests, l: Leases, blocks: Blocks, ids: seq<ReqId>)
    requires Safe(l) && Distinct(ids) && 1 <= |ids| <= BATCH && (forall id | id in ids :: id in requests)
    requires l.next + |Unleased(l, ids)| <= GENERATION_LIMIT
    ensures Assign(l, ids).Assigned? && AllLeased(requests, Assign(l, ids).leases, ids)
    ensures var m := Assign(l, ids).leases;
            && (Plannable(c, requests, m, blocks, ids) <==> Plannable(c, requests, l, blocks, ids))
            && (PlanOutcomeOf(c, requests, m, blocks, ids).Built? <==> Plannable(c, requests, l, blocks, ids))
  {
    SameOwners(l, ids);
    AssignLeases(l, requests, ids);
    var m := Assign(l, ids).leases;
    SamePlannable(c, requests, l, m, blocks, ids);
    if Plannable(c, requests, m, blocks, ids) { PlanIsValid(c, requests, m, blocks, ids); }
  }

  lemma SameOwners(l: Leases, ids: seq<ReqId>)
    requires Safe(l) && |ids| <= BATCH && l.next + |Unleased(l, ids)| <= GENERATION_LIMIT
    ensures Assign(l, ids).Assigned? && Safe(Assign(l, ids).leases)
    ensures forall id | id in ids :: id in Assign(l, ids).leases.owned <==> id in l.owned
  {
    AssignSafe(l, ids);
    RowsSuffice(l, ids);
    GenerationsSuffice(l, ids);
    assert forall id | id in ids :: id in Elements(ids);
  }

  lemma SamePlannable(c: Config, requests: Requests, l: Leases, m: Leases, blocks: Blocks, ids: seq<ReqId>)
    requires (forall id | id in ids :: id in requests) && forall id | id in ids :: id in m.owned <==> id in l.owned
    ensures Plannable(c, requests, m, blocks, ids) <==> Plannable(c, requests, l, blocks, ids)
  {
    assert forall id | id in ids ::
        Ready(c, requests[id], id in l.owned, blocks(id)) == Ready(c, requests[id], id in m.owned, blocks(id));
  }

  // ----- what is in the plan

  /** The entry of a request, field by field. */
  ghost predicate EntryFrom(q: PlanRequest, l: Leases, id: ReqId, request: Request, groups: seq<seq<int>>) {
    && q.id == id && id in l.rows && id in l.generations && q.row == l.rows[id] && q.generation == l.generations[id]
    && request.tokens != [] && q.token == request.tokens[|request.tokens| - 1] && q.position == |request.tokens| - 1 && q.length == |request.tokens|
    && q.eos == request.eos && |groups| == 1 && q.blocks == groups[0]
    && (q.owner.DeviceOwned? <==> id in l.owned) && (q.importRequired <==> id !in l.owned && request.prompt > 1)
  }

  /** The plan has one entry a scheduled request, in order, for the longest common epoch, and marks their rows active. */
  lemma PlanHolds(c: Config, running: seq<ReqId>, requests: Requests, l: Leases, blocks: Blocks, out: Output)
    requires ValidConfig(c) && Safe(l) && Distinct(out.ids) && forall id | id in out.ids :: id in out.counts && id in requests
    requires Planned(c, running, requests, l, blocks, out).1.Built?
    ensures var (m, outcome) := Planned(c, running, requests, l, blocks, out);
            var p := outcome.plan;
            && p.version == 3 && p.graphBatch == 4 && p.capacity == c.capacity && LongestEpoch(c, requests, out.ids, p.maxSteps)
            && |p.requests| == |out.ids|
            && (forall i: nat | i < |out.ids| :: EntryFrom(p.requests[i], m, out.ids[i], requests[out.ids[i]], blocks(out.ids[i])))
            && |p.activeMask| == 4
            && forall r: nat | r < 4 :: p.activeMask[r] == if exists i: nat :: i < |out.ids| && p.requests[i].row == r then 1 else 0
  {
    ChecksMean(running, out);
    PlannedOutcome(c, running, requests, l, blocks, out);
    AssignLeases(l, requests, out.ids);
    var m := Assign(l, out.ids).leases;
    PlannableMeans(c, requests, m, blocks, out.ids);
    var p := PlanOf(c, requests, m, blocks, out.ids);
    forall i: nat | i < |out.ids|
      ensures |p.requests| == |out.ids| && EntryFrom(p.requests[i], m, out.ids[i], requests[out.ids[i]], blocks(out.ids[i]))
    {
      EntryHolds(c, requests, m, blocks, out.ids, i);
    }
    MaskHolds(p);
  }

  lemma EntryHolds(c: Config, requests: Requests, l: Leases, blocks: Blocks, ids: seq<ReqId>, i: nat)
    requires i < |ids| && AllLeased(requests, l, ids) && Plannable(c, requests, l, blocks, ids)
    ensures var p := PlanOf(c, requests, l, blocks, ids);
            |p.requests| == |ids| && EntryFrom(p.requests[i], l, ids[i], requests[ids[i]], blocks(ids[i]))
  {
    assert Ready(c, requests[ids[i]], ids[i] in l.owned, blocks(ids[i]));
    assert Fits(c, requests[ids[i]], EpochSteps(c, requests, ids), blocks(ids[i]));
    EntryIs(l, ids[i], requests[ids[i]], blocks(ids[i]));
  }

  lemma EntryIs(l: Leases, id: ReqId, q: Request, groups: seq<seq<int>>)
    requires id in l.rows && id in l.generations && 1 <= q.computed == |q.tokens| && |groups| == 1
    ensures EntryFrom(EntryOf(l, id, q, groups), l, id, q, groups)
  {
  }

  lemma MaskHolds(p: Plan)
    requires ValidPlan(p) && p.graphBatch == BATCH
    ensures |p.activeMask| == BATCH
    ensures forall r: nat | r < BATCH :: p.activeMask[r] == if exists i: nat :: i < |p.requests| && p.requests[i].row == r then 1 else 0
  {
    assert forall q | q in p.requests :: ValidRequest(p, q);
    ScatterAt(p.requests, One, 0, BATCH);
  }
}
