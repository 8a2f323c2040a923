/** The resident epoch scheduler on top of the vLLM base scheduler: host isolation, plans, and token accounting.

    The base scheduler is not shown; it appears as a choice of which requests to admit and schedule. */
module Scheduler {
  import opened Layout
  import opened Contract
  import opened RowLeases

  /** A vLLM request: its prompt and output tokens, how many of them are computed, and when it ends. `eligible`
      stands for the tests of the sampling parameters. */
  datatype Request = Request(prompt: nat, tokens: seq<int>, computed: int, maxTokens: int, eos: int, eligible: bool)

  function Made(q: Request): int { |q.tokens| - q.prompt }

  function Remaining(q: Request): int { q.maxTokens - Made(q) }

  type Requests = map<ReqId, Request>

  datatype Config = Config(maxSteps: int, capacity: int)

  predicate ValidConfig(c: Config) { c.maxSteps in {1, 2, 4, 8} && c.capacity >= c.maxSteps }

  /** The base scheduler's output: the scheduled requests in order with their token counts; `plain` when there is no
      speculative decoding, encoder input, preemption, connector or foreign block size. */
  datatype Output = Output(ids: seq<ReqId>, counts: map<ReqId, int>, plain: bool)

  /** The KV manager's block groups of a request. */
  type Blocks = ReqId -> seq<seq<int>>

  datatype PlanOutcome = Built(plan: Plan) | Rejected | RowsGone | GenerationsGone | Invalid

  // ----- what a plan is

  predicate PreChecks(running: seq<ReqId>, out: Output)
    requires forall id | id in out.ids :: id in out.counts
  {
    && 1 <= |out.ids| <= BATCH
    && (forall id | id in out.ids :: out.counts[id] == 1)
    && out.plain
    && Elements(out.ids) == Elements(running)
  }

  predicate Ready(c: Config, q: Request, owned: bool, groups: seq<seq<int>>) {
    && q.eligible
    && q.prompt <= c.capacity
    && !(q.prompt > 1 && Made(q) == 0)
    && !(q.prompt > 1 && !owned && |groups| != 1)
    && q.computed == |q.tokens|
    && Remaining(q) >= 1
  }

  /** The largest of 1, 2, 4, 8 that is at most `budget`. */
  function PowerWithin(budget: int): (steps: int)
    ensures budget >= 1 ==> 1 <= steps <= budget && steps in {1, 2, 4, 8} && (2 * steps > budget || steps == 8)
  {
    if budget >= 8 then 8 else if budget >= 4 then 4 else if budget >= 2 then 2 else 1
  }

  function Least(requests: Requests, ids: seq<ReqId>, bound: int): (least: int)
    requires forall id | id in ids :: id in requests
    ensures least <= bound && forall id | id in ids :: least <= Remaining(requests[id])
    ensures least == bound || exists id :: id in ids && least == Remaining(requests[id])
  {
    if ids == [] then bound
    else
      var before := Least(requests, ids[..|ids| - 1], bound);
      var remaining := Remaining(requests[ids[|ids| - 1]]);
      if remaining < before then remaining else before
  }

  /** The number of steps of the next epoch. */
  function EpochSteps(c: Config, requests: Requests, ids: seq<ReqId>): int
    requires forall id | id in ids :: id in requests
  {
    PowerWithin(Least(requests, ids, c.maxSteps))
  }

  predicate Fits(c: Config, q: Request, steps: int, groups: seq<seq<int>>) {
    && 0 <= q.computed - 1 && q.computed - 1 + steps <= c.capacity
    && |groups| == 1 && groups[0] != []
  }

  /** The plan's entry for a request; `owned` says that the device holds its state. */
  function EntryOf(l: Leases, id: ReqId, q: Request, groups: seq<seq<int>>): PlanRequest
    requires id in l.rows && id in l.generations && 1 <= q.computed <= |q.tokens| && |groups| == 1
  {
    PlanRequest(id, l.rows[id], l.generations[id], q.tokens[q.computed - 1], q.computed - 1, q.computed, q.eos, groups[0],
                if id in l.owned then DeviceOwned else HostOwned, q.prompt > 1 && id !in l.owned)
  }

  predicate Plannable(c: Config, requests: Requests, l: Leases, blocks: Blocks, ids: seq<ReqId>)
    requires forall id | id in ids :: id in requests
  {
    && (forall id | id in ids :: Ready(c, requests[id], id in l.owned, blocks(id)))
    && (forall id | id in ids :: Fits(c, requests[id], EpochSteps(c, requests, ids), blocks(id)))
  }

  /** Everything an entry is made of is there. */
  predicate Enterable(requests: Requests, l: Leases, blocks: Blocks, id: ReqId) {
    && id in requests && id in l.rows && id in l.generations
    && 1 <= requests[id].computed <= |requests[id].tokens| && |blocks(id)| == 1
  }

  function Entries(requests: Requests, l: Leases, blocks: Blocks, ids: seq<ReqId>): (entries: seq<PlanRequest>)
    requires forall id | id in ids :: Enterable(requests, l, blocks, id)
    ensures |entries| == |ids|
    ensures forall i :: 0 <= i < |ids| ==>
              Enterable(requests, l, blocks, ids[i]) && entries[i] == EntryOf(l, ids[i], requests[ids[i]], blocks(ids[i]))
  {
    if ids == [] then []
    else
      var id := ids[|ids| - 1];
      assert Enterable(requests, l, blocks, id);
      Entries(requests, l, blocks, ids[..|ids| - 1]) + [EntryOf(l, id, requests[id], blocks(id))]
  }

  function PlanOf(c: Config, requests: Requests, l: Leases, blocks: Blocks, ids: seq<ReqId>): Plan
    requires forall id | id in ids :: id in requests && id in l.rows && id in l.generations
    requires Plannable(c, requests, l, blocks, ids)
  {
    var entries := Entries(requests, l, blocks, ids);
    Plan(CONTRACT_VERSION, BATCH, EpochSteps(c, requests, ids), c.capacity, entries,
         Scatter(entries, One, 0, BATCH))
  }

  predicate AllLeased(requests: Requests, l: Leases, ids: seq<ReqId>) {
    forall id | id in ids :: id in requests && id in l.rows && id in l.generations && l.rows[id] < BATCH
  }

  /** What comes of the requests once they have rows. */
  function PlanOutcomeOf(c: Config, requests: Requests, l: Leases, blocks: Blocks, ids: seq<ReqId>): PlanOutcome
    requires AllLeased(requests, l, ids)
  {
    if !Plannable(c, requests, l, blocks, ids) then Rejected
    else
      var p := PlanOf(c, requests, l, blocks, ids);
      if ValidPlan(p) then Built(p) else Invalid
  }

  /** The checks of the first loop over the scheduled requests, and the smallest of the step limits. */
  method CheckReady(c: Config, requests: Requests, l: Leases, blocks: Blocks, ids: seq<ReqId>) returns (ok: bool, least: int)
    requires forall id | id in ids :: id in requests
    ensures ok == forall id | id in ids :: Ready(c, requests[id], id in l.owned, blocks(id))
    ensures ok ==> least == Least(requests, ids, c.maxSteps)
  {
    least := c.maxSteps;
    for n := 0 to |ids|
      invariant forall id | id in ids[..n] :: id in requests && Ready(c, requests[id], id in l.owned, blocks(id))
      invariant least == Least(requests, ids[..n], c.maxSteps)
    {
      var id := ids[n];
      var q := requests[id];
      if !q.eligible || q.prompt > c.capacity || (q.prompt > 1 && Made(q) == 0)
         || (q.prompt > 1 && id !in l.owned && |blocks(id)| != 1) || q.computed != |q.tokens| || Remaining(q) < 1
      {
        assert !Ready(c, q, id in l.owned, blocks(id));
        return false, least;
      }
      assert ids[..n + 1] == ids[..n] + [id];
      least := if Remaining(q) < least then Remaining(q) else least;
    }
    assert ids[..|ids|] == ids;
    ok := true;
  }

  /** The second loop after `n` requests. */
  ghost predicate BuiltUpTo(c: Config, requests: Requests, l: Leases, blocks: Blocks, ids: seq<ReqId>, steps: int,
                            n: nat, entries: seq<PlanRequest>, mask: seq<int>)
    requires n <= |ids|
  {
    && (forall id | id in ids[..n] :: Enterable(requests, l, blocks, id) && Fits(c, requests[id], steps, blocks(id)))
    && entries == Entries(requests, l, blocks, ids[..n])
    && mask == Scatter(entries, One, 0, BATCH)
  }

  lemma BuiltStep(c: Config, requests: Requests, l: Leases, blocks: Blocks, ids: seq<ReqId>, steps: int,
                  n: nat, entries: seq<PlanRequest>, mask: seq<int>)
    requires n < |ids| && BuiltUpTo(c, requests, l, blocks, ids, steps, n, entries, mask)
    requires Enterable(requests, l, blocks, ids[n]) && Fits(c, requests[ids[n]], steps, blocks(ids[n])) && l.rows[ids[n]] < BATCH
    ensures var entry := EntryOf(l, ids[n], requests[ids[n]], blocks(ids[n]));
            |mask| == BATCH && BuiltUpTo(c, requests, l, blocks, ids, steps, n + 1, entries + [entry], mask[entry.row := 1])
  {
    EntriesStep(requests, l, blocks, ids[..n], ids[n]);
    MaskStep(entries, EntryOf(l, ids[n], requests[ids[n]], blocks(ids[n])));
    assert ids[..n + 1] == ids[..n] + [ids[n]];
  }

  /** The second loop: the plan's entries and its active mask. */
  method BuildEntries(c: Config, requests: Requests, l: Leases, blocks: Blocks, ids: seq<ReqId>, steps: int)
    returns (ok: bool, entries: seq<PlanRequest>, mask: seq<int>)
    requires AllLeased(requests, l, ids) && forall id | id in ids :: requests[id].computed == |requests[id].tokens|
    ensures ok == forall id | id in ids :: Fits(c, requests[id], steps, blocks(id))
    ensures ok ==> forall id | id in ids :: Enterable(requests, l, blocks, id)
    ensures ok ==> entries == Entries(requests, l, blocks, ids) && mask == Scatter(entries, One, 0, BATCH)
  {
    entries, mask := [], [0, 0, 0, 0];
    for n := 0 to |ids|
      invariant BuiltUpTo(c, requests, l, blocks, ids, steps, n, entries, mask)
    {
      var id := ids[n];
      var q := requests[id];
      var groups := blocks(id);
      if q.computed - 1 < 0 || q.computed - 1 + steps > c.capacity || |groups| != 1 || groups[0] == [] {
        assert !Fits(c, q, steps, groups);
        return false, entries, mask;
      }
      assert Enterable(requests, l, blocks, id);
      BuiltStep(c, requests, l, blocks, ids, steps, n, entries, mask);
      entries := entries + [EntryOf(l, id, q, groups)];
      mask := mask[l.rows[id] := 1];
    }
    assert ids[..|ids|] == ids;
    ok := true;
  }

  lemma EntriesStep(requests: Requests, l: Leases, blocks: Blocks, ids: seq<ReqId>, id: ReqId)
    requires (forall x | x in ids :: Enterable(requests, l, blocks, x)) && Enterable(requests, l, blocks, id)
    ensures forall x | x in ids + [id] :: Enterable(requests, l, blocks, x)
    ensures Entries(requests, l, blocks, ids + [id]) == Entries(requests, l, blocks, ids) + [EntryOf(l, id, requests[id], blocks(id))]
  {
    assert (ids + [id])[..|ids|] == ids;
  }

  lemma MaskStep(entries: seq<PlanRequest>, entry: PlanRequest)
    requires 0 <= entry.row < BATCH
    ensures Scatter(entries + [entry], One, 0, BATCH) == Scatter(entries, One, 0, BATCH)[entry.row := 1]
  {
    assert (entries + [entry])[..|entries|] == entries;
  }

  method PlanRequests(c: Config, requests: Requests, l: Leases, blocks: Blocks, ids: seq<ReqId>) returns (outcome: PlanOutcome)
    requires AllLeased(requests, l, ids)
    ensures outcome == PlanOutcomeOf(c, requests, l, blocks, ids)
  {
    var ready, least := CheckReady(c, requests, l, blocks, ids);
    if !ready { return Rejected; }
    var steps := PowerWithin(least);
    var fits, entries, mask := BuildEntries(c, requests, l, blocks, ids, steps);
    if !fits { return Rejected; }
    var plan := Plan(CONTRACT_VERSION, BATCH, steps, c.capacity, entries, mask);
    var valid := Validate(plan);
    outcome := if valid then Built(plan) else Invalid;
  }

  lemma AssignLeases(l: Leases, requests: Requests, ids: seq<ReqId>)
    requires Safe(l) && forall id | id in ids :: id in requests
    ensures Assign(l, ids).Assigned? ==> AllLeased(requests, Assign(l, ids).leases, ids)
  {
    AssignSafe(l, ids);
    if Assign(l, ids).Assigned? {
      forall id | id in ids
        ensures LeaseOk(Assign(l, ids).leases, id)
      {
        assert id in Elements(ids);
      }
    }
  }

  /** `_make_resident_epoch_plan`: the leases afterwards and what came of it. */
  function Planned(c: Config, running: seq<ReqId>, requests: Requests, l: Leases, blocks: Blocks, out: Output): (Leases, PlanOutcome)
    requires Safe(l) && forall id | id in out.ids :: id in out.counts && id in requests
  {
    if !PreChecks(running, out) then (l, Rejected)
    else
      AssignLeases(l, requests, out.ids);
      match Assign(l, out.ids)
      case RowsExhausted => (l, RowsGone)
      case GenerationsExhausted => (l, GenerationsGone)
      case Assigned(m) => (m, PlanOutcomeOf(c, requests, m, blocks, out.ids))
  }

  // ----- isolation

  predicate IsRunning(running: seq<ReqId>, requests: Requests) { forall id | id in running :: id in requests }

  /** Whether a host step has to be run alone, with the device's requests paused. */
  predicate Isolates(running: seq<ReqId>, waiting: seq<ReqId>, requests: Requests, owned: set<ReqId>, maxRunning: int)
    requires IsRunning(running, requests) && IsRunning(waiting, requests)
  {
    && (exists id :: id in running && id in owned)
    && ((exists id :: id in running && id !in owned && !requests[id].eligible)
        || (exists id :: id in running && id !in owned && requests[id].computed < requests[id].prompt)
        || ((exists id :: id in waiting && (requests[id].prompt > 1 || !requests[id].eligible)) && |running| < maxRunning))
  }

  /** The requests of a list that are (or are not) in a set, in order. */
  function Filter(ids: seq<ReqId>, s: set<ReqId>, keep: bool): (r: seq<ReqId>)
    ensures forall id :: id in r <==> id in ids && (id in s) == keep
    ensures |r| <= |ids|
  {
    if ids == [] then []
    else Filter(ids[..|ids| - 1], s, keep) + if (ids[|ids| - 1] in s) == keep then [ids[|ids| - 1]] else []
  }

  // ----- the base scheduler

  /** What the base scheduler decides on the running list it sees. */
  datatype Choice = Choice(admitted: seq<ReqId>, ids: seq<ReqId>, counts: map<ReqId, int>, plain: bool)

  /** Its axioms: it admits waiting requests, schedules some of the requests then running, and never more tokens
      than a request has left to compute. */
  ghost predicate Lawful(choice: Choice, visible: seq<ReqId>, waiting: seq<ReqId>, requests: Requests) {
    && (forall id | id in choice.admitted :: id in waiting && id !in visible)
    && Distinct(visible + choice.admitted) && Distinct(choice.ids)
    && (forall id | id in choice.ids :: id in visible || id in choice.admitted)
    && (forall id | id in choice.ids :: id in requests && id in choice.counts)
    && (forall id | id in choice.ids :: 1 <= choice.counts[id] <= |requests[id].tokens| - requests[id].computed)
  }

  function Scheduled(q: Request, count: int): Request { q.(computed := q.computed + count) }

  predicate Counted(choice: Choice) { forall id | id in choice.ids :: id in choice.counts }

  /** It adds the scheduled counts to the computed tokens. */
  function AddCounts(requests: Requests, choice: Choice): (r: Requests)
    requires Counted(choice)
    ensures r.Keys == requests.Keys
  {
    map id | id in requests :: if id in choice.ids then Scheduled(requests[id], choice.counts[id]) else requests[id]
  }

  predicate Stops(q: Request) { Made(q) >= q.maxTokens || (q.tokens != [] && q.tokens[|q.tokens| - 1] == q.eos) }

  /** It appends sampled tokens up to the first that stops the request. */
  function Append(q: Request, sampled: seq<int>): Request
    decreases |sampled|
  {
    if sampled == [] then q
    else
      var q1 := q.(tokens := q.tokens + [sampled[0]]);
      if Stops(q1) then q1 else Append(q1, sampled[1..])
  }

  predicate Empty(sampled: map<ReqId, seq<int>>, id: ReqId) { id !in sampled || sampled[id] == [] }

  function Appended(requests: Requests, sampled: map<ReqId, seq<int>>): (r: Requests)
    ensures r.Keys == requests.Keys
  {
    map id | id in requests :: if Empty(sampled, id) then requests[id] else Append(requests[id], sampled[id])
  }

  /** The requests that stopped with the sampled tokens. */
  function StoppedBy(requests: Requests, sampled: map<ReqId, seq<int>>): set<ReqId> {
    set id | id in requests && !Empty(sampled, id) && Stops(Append(requests[id], sampled[id]))
  }

  // ----- scheduling

  /** The state a round works on. */
  datatype View = View(running: seq<ReqId>, waiting: seq<ReqId>, requests: Requests, leases: Leases)

  /** How scheduling ends: with an exception, or with an output that may carry a plan. */
  datatype Scheduling = Refused | Accepted(out: Output, plan: Option<Plan>, isolated: bool)

  type Base = (seq<ReqId>, int) -> Choice

  ghost predicate Consistent(v: View) {
    && Safe(v.leases) && IsRunning(v.running, v.requests) && IsRunning(v.waiting, v.requests)
    && Distinct(v.running) && (forall id | id in v.waiting :: id !in v.running)
  }

  predicate Isolated(v: View, maxRunning: int)
    requires IsRunning(v.running, v.requests) && IsRunning(v.waiting, v.requests)
  {
    Isolates(v.running, v.waiting, v.requests, v.leases.owned, maxRunning)
  }

  /** The running list the base scheduler sees. */
  function Visible(v: View, isolated: bool): seq<ReqId> {
    if isolated then Filter(v.running, v.leases.owned, false) else v.running
  }

  function Paused(v: View, isolated: bool): seq<ReqId> {
    if isolated then Filter(v.running, v.leases.owned, true) else []
  }

  function Decision(v: View, maxRunning: int, base: Base): Choice
    requires IsRunning(v.running, v.requests) && IsRunning(v.waiting, v.requests)
  {
    var isolated := Isolated(v, maxRunning);
    base(Visible(v, isolated), maxRunning - |Paused(v, isolated)|)
  }

  /** The base scheduler follows its axioms on the list it is shown, and does not touch paused requests. */
  ghost predicate LawfulBase(v: View, maxRunning: int, base: Base)
    requires Consistent(v)
  {
    Lawful(Decision(v, maxRunning, base), Visible(v, Isolated(v, maxRunning)), v.waiting, v.requests)
  }

  /** The state after the base scheduler has run. */
  function Rescheduled(v: View, isolated: bool, choice: Choice): View
    requires Counted(choice)
  {
    v.(running := Paused(v, isolated) + (Visible(v, isolated) + choice.admitted),
       waiting := Filter(v.waiting, Elements(choice.admitted), false),
       requests := AddCounts(v.requests, choice))
  }

  function OutputOf(choice: Choice): Output { Output(choice.ids, choice.counts, choice.plain) }

  /** `schedule` once the plan is made or rejected. */
  function Verdict(outcome: PlanOutcome, out: Output, owned: set<ReqId>, isolated: bool): Scheduling {
    match outcome
    case Built(p) => if isolated then Refused else Accepted(out, Some(p), isolated)
    case Rejected => if exists id :: id in out.ids && id in owned then Refused else Accepted(out, None, isolated)
    case _ => Refused
  }

  /** `schedule` */
  function Schedules(c: Config, maxRunning: int, v: View, base: Base, blocks: Blocks): (View, Scheduling)
    requires Consistent(v) && LawfulBase(v, maxRunning, base)
  {
    var isolated := Isolated(v, maxRunning);
    var choice := Decision(v, maxRunning, base);
    var w := Rescheduled(v, isolated, choice);
    if isolated && (choice.ids == [] || exists id :: id in choice.ids && id in Paused(v, isolated)) then (w, Refused)
    else
      var (leases, outcome) := Planned(c, w.running, w.requests, w.leases, blocks, OutputOf(choice));
      (w.(leases := leases), Verdict(outcome, OutputOf(choice), leases.owned, isolated))
  }

  // ----- token accounting

  function Extra(out: Output, steps: map<ReqId, int>, id: ReqId): int
    requires id in steps && id in out.counts
  {
    steps[id] - out.counts[id]
  }

  /** An epoch may not compute less than was scheduled, nor more than the tokens there will be. */
  predicate ExtraOk(requests: Requests, out: Output, steps: map<ReqId, int>, sampled: map<ReqId, seq<int>>, id: ReqId) {
    && id in requests && id in steps && id in out.counts && id in sampled
    && 0 <= Extra(out, steps, id)
    && requests[id].computed + Extra(out, steps, id) <= |requests[id].tokens| + |sampled[id]|
  }

  predicate Countable(requests: Requests, out: Output, r: EpochResult, p: Plan, sampled: map<ReqId, seq<int>>)
    requires p.graphBatch >= 0
  {
    Accepts(r, p, sampled) && forall id | id in r.steps :: ExtraOk(requests, out, r.steps, sampled, id)
  }

  /** The extra steps added to the computed tokens. */
  function Accounted(requests: Requests, out: Output, steps: map<ReqId, int>): (r: Requests)
    requires forall id | id in steps :: id in out.counts
    ensures r.Keys == requests.Keys
  {
    map id | id in requests ::
      if id in steps then requests[id].(computed := requests[id].computed + Extra(out, steps, id)) else requests[id]
  }

  /** A result is accounted for exactly if it meets the contract and, for every request of the plan, there are at least as many
      tokens as were scheduled and what had been computed before was there. Each request has then computed the tokens made
      beyond the scheduled ones too, no more than it will have, and nobody else is touched. */
  lemma AccountingTaken(requests: Requests, out: Output, r: EpochResult, p: Plan, sampled: map<ReqId, seq<int>>)
    requires p.graphBatch >= 0 && forall id | id in Ids(p) :: id in requests && id in out.counts
    ensures Countable(requests, out, r, p, sampled) <==>
            && Accepts(r, p, sampled)
            && forall id | id in Ids(p) ::
                 out.counts[id] <= |sampled[id]| && requests[id].computed - out.counts[id] <= |requests[id].tokens|
    ensures Countable(requests, out, r, p, sampled) ==>
              && (forall id | id in requests && id !in Ids(p) :: Accounted(requests, out, r.steps)[id] == requests[id])
              && forall id | id in Ids(p) ::
                   var before, after := requests[id], Accounted(requests, out, r.steps)[id];
                   && after == before.(computed := before.computed - out.counts[id] + |sampled[id]|)
                   && before.computed <= after.computed <= |after.tokens| + |sampled[id]|
  {
    if Accepts(r, p, sampled) {
      forall id | id in Ids(p)
        ensures id in r.steps && id in sampled && r.steps[id] == |sampled[id]|
      {
        var q :| q in p.requests && q.id == id;
        assert RequestAccepted(r, p, q, sampled[q.id]);
      }
    }
  }

  /** The requests of a plan the host still owned. */
  function HostIds(requests: seq<PlanRequest>): (ids: set<ReqId>)
    ensures forall id :: id in ids <==> exists q :: q in requests && q.owner.HostOwned? && q.id == id
  {
    set q | q in requests && q.owner.HostOwned? :: q.id
  }

  /** After a device result the old owners and the requests of the plan the host still owned, after any other the old
      owners only. */
  ghost predicate HandedOver(before: set<ReqId>, after: set<ReqId>, r: EpochResult, p: Plan) {
    forall id :: id in after <==> id in before || (r.route.DeviceRoute? && exists q :: q in p.requests && q.owner.HostOwned? && q.id == id)
  }

  /** The base scheduler's view after sampled tokens have been appended. */
  function Closed(w: View, requests: Requests, sampled: map<ReqId, seq<int>>): View {
    w.(requests := Appended(requests, sampled) - StoppedBy(requests, sampled),
       running := Filter(w.running, StoppedBy(requests, sampled), false))
  }

  // ----- the scheduler itself

  class ResidentScheduler {
    const config: Config
    const maxRunning: int
    var running: seq<ReqId>
    var waiting: seq<ReqId>
    var requests: Requests
    var rows: map<ReqId, nat>
    var generations: map<ReqId, int>
    var owned: set<ReqId>
    var next: int

    function State(): Leases
      reads this
    {
      Leases(rows, generations, owned, next)
    }

    constructor (config: Config, maxRunning: int)
      ensures State() == NO_LEASES && running == [] && waiting == [] && requests == map[]
      ensures this.config == config && this.maxRunning == maxRunning
    {
      this.config, this.maxRunning := config, maxRunning;
      running, waiting, requests := [], [], map[];
      rows, generations, owned, next := map[], map[], {}, 1;
    }

    /** Forget the leases of the requests that are not scheduled. */
    method DropLeases(ids: seq<ReqId>)
      modifies this`rows, this`generations, this`owned
      ensures State() == Kept(old(State()), Elements(ids))
    {
      var before := rows.Keys;
      var left := before;
      while left != {}
        invariant left <= before
        invariant rows == map id | id in old(rows) && (id in left || id in ids) :: old(rows)[id]
        invariant generations == map id | id in old(generations) && (id in left || id in ids || id !in old(rows)) :: old(generations)[id]
        invariant owned == set id | id in old(owned) && (id in left || id in ids || id !in old(rows))
        decreases |left|
      {
        var id :| id in left;
        left := left - {id};
        if id !in ids {
          rows := rows - {id};
          generations := generations - {id};
          owned := owned - {id};
        }
      }
    }

    /** Serve one request from the list of free rows. */
    method AssignOne(id: ReqId, freeRows: seq<nat>) returns (outcome: Assignment, left: seq<nat>)
      requires freeRows == FreeRows(rows)
      modifies this`rows, this`generations, this`next
      ensures outcome == GiveOne(old(State()), id)
      ensures outcome.Assigned? ==> State() == outcome.leases && left == FreeRows(rows)
    {
      left := freeRows;
      if id in rows { return Assigned(State()), left; }
      if freeRows == [] { return RowsExhausted, left; }
      if next >= GENERATION_LIMIT { return GenerationsExhausted, left; }
      FreeRowTaken(rows, id, 0);
      rows := rows[id := freeRows[0]];
      left := freeRows[1..];
      generations := generations[id := next];
      next := next + 1;
      outcome := Assigned(State());
    }

    /** `_assign_resident_rows` */
    method AssignRows(ids: seq<ReqId>) returns (outcome: Assignment)
      modifies this`rows, this`generations, this`owned, this`next
      ensures outcome == Assign(old(State()), ids)
      ensures outcome.Assigned? ==> State() == outcome.leases
    {
      DropLeases(ids);
      ghost var kept := State();
      var freeRows := FreeRows(rows);
      outcome := Assigned(State());
      for n := 0 to |ids|
        invariant outcome == Assigned(State()) == Give(kept, ids[..n]) && freeRows == FreeRows(rows)
      {
        assert ids[..n + 1][..n] == ids[..n];
        outcome, freeRows := AssignOne(ids[n], freeRows);
        if !outcome.Assigned? { GiveStops(kept, ids, n + 1); return; }
      }
      assert ids[..|ids|] == ids;
    }

    ghost function Now(): View
      reads this
    {
      View(running, waiting, requests, State())
    }

    /** `_make_resident_epoch_plan` */
    method MakePlan(out: Output, blocks: Blocks) returns (outcome: PlanOutcome)
      requires Safe(State()) && forall id | id in out.ids :: id in out.counts && id in requests
      modifies this`rows, this`generations, this`owned, this`next
      ensures outcome == Planned(config, running, requests, old(State()), blocks, out).1
      ensures outcome.Built? || outcome.Rejected? ==> State() == Planned(config, running, requests, old(State()), blocks, out).0
    {
      if out.ids == [] || |out.ids| > BATCH { return Rejected; }
      if exists id :: id in out.ids && out.counts[id] != 1 { return Rejected; }
      if !out.plain || Elements(out.ids) != Elements(running) { return Rejected; }
      ghost var before := State();
      AssignLeases(before, requests, out.ids);
      var assignment := AssignRows(out.ids);
      if assignment.RowsExhausted? { return RowsGone; }
      if assignment.GenerationsExhausted? { return GenerationsGone; }
      outcome := PlanRequests(config, requests, State(), blocks, out.ids);
    }

    /** `_schedule_with_host_isolation`; `base` is what the base scheduler decides on the running list it sees. */
    method ScheduleIsolated(base: Base) returns (isolated: bool, paused: seq<ReqId>, choice: Choice)
      requires IsRunning(running, requests) && IsRunning(waiting, requests) && Counted(Decision(Now(), maxRunning, base))
      modifies this`running, this`waiting, this`requests
      ensures isolated == Isolated(old(Now()), maxRunning) && paused == Paused(old(Now()), isolated)
      ensures choice == Decision(old(Now()), maxRunning, base)
      ensures Now() == Rescheduled(old(Now()), isolated, choice)
    {
      isolated := Isolates(running, waiting, requests, owned, maxRunning);
      paused := if isolated then Filter(running, owned, true) else [];
      if isolated { running := Filter(running, owned, false); }
      choice := base(running, maxRunning - |paused|);
      running := running + choice.admitted;
      waiting := Filter(waiting, Elements(choice.admitted), false);
      requests := AddCounts(requests, choice);
      running := paused + running;
    }

    /** `schedule` */
    method Schedule(base: Base, blocks: Blocks) returns (scheduling: Scheduling)
      requires Consistent(Now()) && LawfulBase(Now(), maxRunning, base)
      modifies this
      ensures scheduling == Schedules(config, maxRunning, old(Now()), base, blocks).1
      ensures scheduling.Accepted? ==> Now() == Schedules(config, maxRunning, old(Now()), base, blocks).0
    {
      var isolated, paused, choice := ScheduleIsolated(base);
      if isolated && (choice.ids == [] || exists id :: id in choice.ids && id in paused) { return Refused; }
      var outcome := MakePlan(OutputOf(choice), blocks);
      scheduling := Verdict(outcome, OutputOf(choice), owned, isolated);
    }

    /** Check every step count before anything is changed. */
    method CheckExtras(out: Output, r: EpochResult, sampled: map<ReqId, seq<int>>) returns (ok: bool)
      requires forall id | id in r.steps :: id in requests && id in out.counts && id in sampled
      ensures ok == forall id | id in r.steps :: ExtraOk(requests, out, r.steps, sampled, id)
    {
      var left := r.steps.Keys;
      while left != {}
        invariant left <= r.steps.Keys
        invariant forall id | id in r.steps && id !in left :: ExtraOk(requests, out, r.steps, sampled, id)
        decreases |left|
      {
        var id :| id in left;
        left := left - {id};
        var extra := r.steps[id] - out.counts[id];
        if extra < 0 || requests[id].computed + extra > |requests[id].tokens| + |sampled[id]| {
          assert !ExtraOk(requests, out, r.steps, sampled, id);
          return false;
        }
      }
      ok := true;
    }

    method AddExtras(out: Output, steps: map<ReqId, int>)
      requires forall id | id in steps :: id in requests && id in out.counts
      modifies this`requests
      ensures requests == Accounted(old(requests), out, steps)
    {
      var left := steps.Keys;
      while left != {}
        invariant left <= steps.Keys && requests.Keys == old(requests).Keys
        invariant forall id | id in requests ::
                    requests[id] == if id in left then old(requests)[id] else Accounted(old(requests), out, steps)[id]
        decreases |left|
      {
        var id :| id in left;
        left := left - {id};
        requests := requests[id := requests[id].(computed := requests[id].computed + (steps[id] - out.counts[id]))];
      }
    }

    /** `_apply_resident_epoch_accounting`: all or nothing. */
    method ApplyAccounting(out: Output, p: Plan, r: EpochResult, sampled: map<ReqId, seq<int>>) returns (ok: bool)
      requires p.graphBatch >= 0 && forall id | id in Ids(p) :: id in requests && id in out.counts
      modifies this`requests, this`owned
      ensures ok == Countable(old(requests), out, r, p, sampled)
      ensures if ok then requests == Accounted(old(requests), out, r.steps) && HandedOver(old(owned), owned, r, p)
              else requests == old(requests) && owned == old(owned)
    {
      if !Accepts(r, p, sampled) { return false; }
      ok := CheckExtras(out, r, sampled);
      if !ok { return; }
      AddExtras(out, r.steps);
      if r.route.DeviceRoute? { HandOver(p.requests); }
    }

    /** A device result makes the device the owner of every request of the plan. */
    method HandOver(handed: seq<PlanRequest>)
      modifies this`owned
      ensures owned == old(owned) + HostIds(handed)
    {
      for n := 0 to |handed|
        invariant owned == old(owned) + HostIds(handed[..n])
      {
        assert handed[..n + 1] == handed[..n] + [handed[n]];
        if handed[n].owner.HostOwned? { owned := owned + {handed[n].id}; }
      }
      assert handed[..|handed|] == handed;
    }

    /** The base scheduler's part of `update_from_output`. */
    method FinishRound(sampled: map<ReqId, seq<int>>)
      modifies this`running, this`requests
      ensures Now() == Closed(old(Now()), old(requests), sampled)
    {
      var finished := StoppedBy(requests, sampled);
      requests := Appended(requests, sampled) - finished;
      running := Filter(running, finished, false);
    }

    /** `update_from_output`: it raises when only one of plan and result is there, or when the accounting does. */
    method UpdateFromOutput(out: Output, plan: Option<Plan>, result: Option<EpochResult>, sampled: map<ReqId, seq<int>>) returns (ok: bool)
      requires plan.Some? ==> plan.value.graphBatch >= 0 && forall id | id in Ids(plan.value) :: id in requests && id in out.counts
      modifies this`running, this`requests, this`owned
      ensures ok <==> plan.Some? == result.Some? && (plan.Some? ==> Countable(old(requests), out, result.value, plan.value, sampled))
      ensures !ok ==> Now() == old(Now())
      ensures ok && plan.None? ==> Now() == Closed(old(Now()), old(requests), sampled)
      ensures ok && plan.Some? ==>
                && HandedOver(old(owned), owned, result.value, plan.value)
                && Now() == Closed(old(Now()).(leases := old(State()).(owned := owned)), Accounted(old(requests), out, result.value.steps), sampled)
    {
      if plan.None? {
        if result.Some? { return false; }
        FinishRound(sampled);
        return true;
      }
      if result.None? { return false; }
      ok := ApplyAccounting(out, plan.value, result.value, sampled);
      if ok { FinishRound(sampled); }
    }
  }

  /** Once an assignment has failed it stays failed. */
  lemma {:induction false} GiveStops(l: Leases, ids: seq<ReqId>, n: nat)
    requires n <= |ids| && !Give(l, ids[..n]).Assigned?
    ensures Give(l, ids) == Give(l, ids[..n])
  {
    if n < |ids| {
      assert ids[..|ids| - 1][..n] == ids[..n];
      GiveStops(l, ids[..|ids| - 1], n);
    } else {
      assert ids[..n] == ids;
    }
  }
}
