/** Rounds with a single request, computed: how a run gets from one small state to another. */
module SoloRounds {
  import opened Layout
  import opened Flow
  import opened EpochSpec
  import opened Bridge
  import opened Contract
  import opened RowLeases
  import opened Scheduler
  import opened SchedulerSafety
  import opened Lockstep
  import opened LockstepRuns
  import opened Sidecar

  /** The base scheduler admits one waiting request and schedules one token of it. */
  function Admits(id: ReqId, plain: bool): Base { (visible, slots) => Choice([id], [id], map[id := 1], plain) }

  function OneBlock(id: ReqId): seq<seq<int>> { [[0]] }

  /** Only this request, waiting or running. */
  function Waits(l: Leases, id: ReqId, q: Request): View { View([], [id], map[id := q], l) }
  function Runs(l: Leases, id: ReqId, q: Request): View { View([id], [], map[id := q], l) }

  lemma FilterOne(id: ReqId, s: set<ReqId>, keep: bool)
    ensures Filter([id], s, keep) == if (id in s) == keep then [id] else []
  {
    assert [id][..0] == [];
    assert Filter([], s, keep) == [];
  }

  lemma SoloChoice(maxRunning: int, l: Leases, id: ReqId, q: Request, plain: bool)
    requires Safe(l) && q.computed < |q.tokens|
    ensures var v := Waits(l, id, q);
            && Consistent(v) && !Isolated(v, maxRunning) && LawfulBase(v, maxRunning, Admits(id, plain))
            && Decision(v, maxRunning, Admits(id, plain)) == Choice([id], [id], map[id := 1], plain)
            && Rescheduled(v, false, Choice([id], [id], map[id := 1], plain)) == Runs(l, id, Scheduled(q, 1))
  {
    var v := Waits(l, id, q);
    var choice := Choice([id], [id], map[id := 1], plain);
    FilterOne(id, Elements([id]), false);
    assert [] + ([] + [id]) == [id];
    assert AddCounts(map[id := q], choice) == map[id := Scheduled(q, 1)];
  }

  /** A round that admits and schedules the request. */
  lemma SoloRound(c: Config, maxRunning: int, l: Leases, id: ReqId, q: Request, plain: bool)
    requires Safe(l) && id !in l.owned && q.computed < |q.tokens|
    ensures var v := Waits(l, id, q);
            && Consistent(v) && LawfulBase(v, maxRunning, Admits(id, plain))
            && var (m, outcome) := Planned(c, [id], map[id := Scheduled(q, 1)], l, OneBlock, Output([id], map[id := 1], plain));
               Schedules(c, maxRunning, v, Admits(id, plain), OneBlock)
               == (Runs(m, id, Scheduled(q, 1)), Verdict(outcome, Output([id], map[id := 1], plain), m.owned, false))
  {
    SoloChoice(maxRunning, l, id, q, plain);
  }

  /** A sampled token that does not stop the request, and one that does. */
  lemma SoloClosed(l: Leases, id: ReqId, q: Request, token: int)
    ensures var w, q1 := Runs(l, id, q), q.(tokens := q.tokens + [token]);
            Closed(w, w.requests, map[id := [token]]) == if Stops(q1) then View([], [], map[], l) else Runs(l, id, q1)
  {
    var q1 := q.(tokens := q.tokens + [token]);
    var w, sampled := Runs(l, id, q), map[id := [token]];
    assert Append(q, [token]) == q1;
    assert Appended(w.requests, sampled) == map[id := q1];
    assert StoppedBy(w.requests, sampled) == if Stops(q1) then {id} else {};
    FilterOne(id, StoppedBy(w.requests, sampled), false);
    if Stops(q1) { assert map[id := q1] - {id} == map[]; } else { assert map[id := q1] - {} == map[id := q1]; }
  }

  function NoRequests(l: Leases): View { View([], [], map[], l) }

  /** The request after one host step that samples `token`. */
  function Stepped(q: Request, token: int): Request { q.(computed := 1, tokens := q.tokens + [token]) }

  function HostStep(id: ReqId, plain: bool, token: int): Event { HostRound(Admits(id, plain), OneBlock, map[id := [token]]) }

  lemma Arrives(u: Setup, l: Leases, d: Device, id: ReqId, q: Request)
    requires ValidConfig(u.config) && Inv(Sys(NoRequests(l), d)) && NewRequest(q) && id !in l.rows
    ensures Enabled(u, Sys(NoRequests(l), d), Arrive(id, q)) && After(u, Sys(NoRequests(l), d), Arrive(id, q)) == Sys(Waits(l, id, q), d)
    ensures Inv(Sys(Waits(l, id, q), d))
  {
    EventKeeps(u, Sys(NoRequests(l), d), Arrive(id, q));
  }

  lemma StepEnabled(u: Setup, l: Leases, m: Leases, d: Device, id: ReqId, q: Request, plain: bool, token: int)
    requires Inv(Sys(Waits(l, id, q), d)) && NewRequest(q) && q.prompt == 1 && id !in l.owned && id !in m.owned
    requires Planned(u.config, [id], map[id := Scheduled(q, 1)], l, OneBlock, Output([id], map[id := 1], plain)) == (m, Rejected)
    ensures HostEnabled(u, Sys(Waits(l, id, q), d), HostStep(id, plain, token))
    ensures Schedules(u.config, u.maxRunning, Waits(l, id, q), Admits(id, plain), OneBlock).0 == Runs(m, id, Scheduled(q, 1))
  {
    SoloRound(u.config, u.maxRunning, l, id, q, plain);
  }

  /** A one-token request that takes a host step without a plan. */
  lemma Steps(u: Setup, l: Leases, m: Leases, d: Device, id: ReqId, q: Request, plain: bool, token: int)
    requires ValidConfig(u.config) && Inv(Sys(Waits(l, id, q), d)) && NewRequest(q) && q.prompt == 1
    requires id !in l.owned && id !in m.owned
    requires Planned(u.config, [id], map[id := Scheduled(q, 1)], l, OneBlock, Output([id], map[id := 1], plain)) == (m, Rejected)
    ensures var s, e := Sys(Waits(l, id, q), d), HostStep(id, plain, token);
            && Enabled(u, s, e)
            && After(u, s, e) == Sys(if Stops(Stepped(q, token)) then NoRequests(m) else Runs(m, id, Stepped(q, token)), d)
            && Inv(After(u, s, e))
  {
    var s, e := Sys(Waits(l, id, q), d), HostStep(id, plain, token);
    StepEnabled(u, l, m, d, id, q, plain, token);
    SoloClosed(m, id, Scheduled(q, 1), token);
    EventKeeps(u, s, e);
  }

  lemma JoinedLast(a: seq<Event>, b: seq<Event>)
    requires b != []
    ensures (a + b)[..|a + b| - 1] == a + b[..|b| - 1] && (a + b)[|a + b| - 1] == b[|b| - 1]
  {
  }

  lemma {:induction false} RunAppend(u: Setup, start: Sys, a: seq<Event>, b: seq<Event>)
    requires Run(u, start, a).Some?
    ensures Run(u, start, a + b) == Run(u, Run(u, start, a).value, b)
    decreases |b|
  {
    if b == [] {
      assert a + b == a;
    } else {
      JoinedLast(a, b);
      RunAppend(u, start, a, b[..|b| - 1]);
    }
  }

  /** One more event. */
  lemma RunNext(u: Setup, start: Sys, events: seq<Event>, s: Sys, e: Event)
    requires Run(u, start, events) == Some(s) && Inv(s) && Enabled(u, s, e)
    ensures Run(u, start, events + [e]) == Some(After(u, s, e))
  {
    assert (events + [e])[..|events + [e]| - 1] == events;
  }

  /** Arrival and host step, as a run. */
  lemma ArrivesAndSteps(u: Setup, l: Leases, m: Leases, d: Device, id: ReqId, q: Request, plain: bool, token: int)
    requires ValidConfig(u.config) && Inv(Sys(NoRequests(l), d)) && NewRequest(q) && q.prompt == 1 && id !in l.rows && id !in m.owned
    requires Planned(u.config, [id], map[id := Scheduled(q, 1)], l, OneBlock, Output([id], map[id := 1], plain)) == (m, Rejected)
    ensures var after := Sys(if Stops(Stepped(q, token)) then NoRequests(m) else Runs(m, id, Stepped(q, token)), d);
            Inv(after) && Run(u, Sys(NoRequests(l), d), [Arrive(id, q), HostStep(id, plain, token)]) == Some(after)
  {
    var s, e1, e2 := Sys(NoRequests(l), d), Arrive(id, q), HostStep(id, plain, token);
    Arrives(u, l, d, id, q);
    RunNext(u, s, [], s, e1);
    assert [] + [e1] == [e1] && [e1] + [e2] == [e1, e2];
    Steps(u, l, m, d, id, q, plain, token);
    RunNext(u, s, [e1], Sys(Waits(l, id, q), d), e2);
  }

  lemma NothingYet(l: Leases, d: Device)
    requires Safe(l) && l.rows == map[] && DeviceBelow(l, d)
    ensures Inv(Sys(NoRequests(l), d))
  {
  }

  /** An output that is not plain makes no plan and assigns no rows. */
  lemma NotPlain(c: Config, l: Leases, id: ReqId, q: Request)
    requires Safe(l)
    ensures Planned(c, [id], map[id := q], l, OneBlock, Output([id], map[id := 1], false)) == (l, Rejected)
  {
  }

  /** The events lead from one state to the other. */
  ghost predicate Leads(u: Setup, start: Sys, events: seq<Event>, end: Sys) { Run(u, start, events) == Some(end) }

  lemma LeadsFurther(u: Setup, a: Sys, first: seq<Event>, b: Sys, second: seq<Event>, c: Sys)
    requires Leads(u, a, first, b) && Leads(u, b, second, c)
    ensures Leads(u, a, first + second, c)
  {
    RunAppend(u, a, first, second);
  }

  /** From the empty scheduler a one-token request gets to any first host token. */
  lemma FirstHostStep(u: Setup, d: Device, id: ReqId, q: Request, token: int) returns (start: Sys, events: seq<Event>)
    requires ValidConfig(u.config) && DeviceBelow(NO_LEASES, d) && NewRequest(q) && q.prompt == 1 && !Stops(Stepped(q, token))
    ensures start == Sys(NoRequests(NO_LEASES), d) && events == [Arrive(id, q), HostStep(id, false, token)]
    ensures Leads(u, start, events, Sys(Runs(NO_LEASES, id, Stepped(q, token)), d))
  {
    NothingYet(NO_LEASES, d);
    NotPlain(u.config, NO_LEASES, id, Scheduled(q, 1));
    ArrivesAndSteps(u, NO_LEASES, NO_LEASES, d, id, q, false, token);
    start, events := Sys(NoRequests(NO_LEASES), d), [Arrive(id, q), HostStep(id, false, token)];
  }

  // ----- a plan for the request alone

  /** The leases when one request has row 0 and the next generation. */
  function First(l: Leases, id: ReqId): Leases { Leases(map[id := 0], map[id := l.next], {}, l.next + 1) }

  /** A request without a lease is given row 0, whoever else had one. */
  lemma SoloAssign(l: Leases, id: ReqId)
    requires Safe(l) && id !in l.rows && l.next < GENERATION_LIMIT
    ensures Assign(l, [id]) == Assigned(First(l, id))
  {
    var k := Kept(l, Elements([id]));
    KeptSafe(l, Elements([id]));
    assert k.rows == map[] && k.generations == map[] && k.owned == {};
    assert [id][..0] == [];
    assert !Used(k.rows, 0);
    assert FreeRows(k.rows)[0] == 0;
    assert Give(k, []) == Assigned(k);
    assert GiveOne(k, id) == Assigned(First(l, id));
  }

  predicate SoloReady(c: Config, q: Request, steps: int) {
    && q.eligible && q.prompt == 1 <= c.capacity && q.computed == |q.tokens| >= 1 && Remaining(q) >= 1
    && steps == PowerWithin(if Remaining(q) < c.maxSteps then Remaining(q) else c.maxSteps) && q.computed - 1 + steps <= c.capacity
  }

  function SoloEntry(l: Leases, id: ReqId, q: Request): PlanRequest
    requires q.computed == |q.tokens| >= 1
  {
    PlanRequest(id, 0, l.next, q.tokens[|q.tokens| - 1], |q.tokens| - 1, |q.tokens|, q.eos, [0], HostOwned, false)
  }

  function SoloPlan(c: Config, l: Leases, id: ReqId, q: Request, steps: int): Plan
    requires q.computed == |q.tokens| >= 1
  {
    Plan(CONTRACT_VERSION, BATCH, steps, c.capacity, [SoloEntry(l, id, q)], [1, 0, 0, 0])
  }

  lemma SoloMask(entry: PlanRequest)
    requires entry.row == 0
    ensures Scatter([entry], One, 0, BATCH) == [1, 0, 0, 0]
  {
    assert [entry][..0] == [];
    assert Scatter([], One, 0, BATCH) == [0, 0, 0, 0];
  }

  lemma SoloEntries(c: Config, l: Leases, id: ReqId, q: Request, steps: int)
    requires ValidConfig(c) && SoloReady(c, q, steps)
    ensures var m, requests := First(l, id), map[id := q];
            && Enterable(requests, m, OneBlock, id) && Entries(requests, m, OneBlock, [id]) == [SoloEntry(l, id, q)]
            && EpochSteps(c, requests, [id]) == steps
  {
    assert [id][..0] == [];
    assert Entries(map[id := q], First(l, id), OneBlock, []) == [];
    assert Least(map[id := q], [], c.maxSteps) == c.maxSteps;
  }

  lemma SoloPlanValid(c: Config, l: Leases, id: ReqId, q: Request, steps: int)
    requires Safe(l) && SoloReady(c, q, steps)
    ensures ValidPlan(SoloPlan(c, l, id, q, steps))
  {
    var p := SoloPlan(c, l, id, q, steps);
    SoloMask(p.requests[0]);
    assert ValidRequest(p, p.requests[0]);
  }

  /** The scheduler makes that plan. */
  lemma SoloPlanned(c: Config, l: Leases, id: ReqId, q: Request, steps: int)
    requires ValidConfig(c) && Safe(l) && id !in l.rows && l.next < GENERATION_LIMIT && SoloReady(c, q, steps)
    ensures Planned(c, [id], map[id := q], l, OneBlock, Output([id], map[id := 1], true)) ==
            (First(l, id), Built(SoloPlan(c, l, id, q, steps)))
  {
    SoloAssign(l, id);
    SoloEntries(c, l, id, q, steps);
    SoloPlanValid(c, l, id, q, steps);
    SoloMask(SoloEntry(l, id, q));
    assert PlanOf(c, map[id := q], First(l, id), OneBlock, [id]) == SoloPlan(c, l, id, q, steps);
  }

  /** An ineligible request gets its row and generation all the same, but no plan. */
  lemma SoloRejected(c: Config, l: Leases, id: ReqId, q: Request)
    requires Safe(l) && id !in l.rows && l.next < GENERATION_LIMIT && !q.eligible
    ensures Planned(c, [id], map[id := q], l, OneBlock, Output([id], map[id := 1], true)) == (First(l, id), Rejected)
  {
    SoloAssign(l, id);
    assert !Ready(c, q, false, [[0]]);
  }

  lemma SoloValues(entry: PlanRequest, field: PlanRequest -> int, fill: int)
    requires entry.row == 0
    ensures Scatter([entry], field, fill, BATCH) == [field(entry), fill, fill, fill]
  {
    assert [entry][..0] == [];
  }

  /** The bridge takes the plan, without an import. */
  lemma SoloArgs(c: Config, l: Leases, id: ReqId, q: Request, steps: int, tiling: Tiling)
    requires Safe(l) && SoloReady(c, q, steps) && 1 <= steps <= MAX_EPOCH_STEPS && |q.tokens| - 1 + steps <= LOGICAL_CAPACITY
    requires 0 <= q.tokens[|q.tokens| - 1] < VOCAB_SIZE && 0 <= q.eos < VOCAB_SIZE
    ensures var p := SoloPlan(c, l, id, q, steps);
            && Code(ArgsOf(p, NoImport, tiling)) == ACCEPTED && ImportMatches(ArgsOf(p, NoImport, tiling)) && ImportFor(p, NoImport)
  {
    var entry := SoloEntry(l, id, q);
    SoloValues(entry, TokenOf, 0);
    SoloValues(entry, PositionOf, 0);
    SoloValues(entry, LengthOf, 0);
    SoloValues(entry, EosOf, CONFIGURED_EOS);
    SoloValues(entry, GenerationOf, 0);
    OneActive(l.next);
  }

  lemma OneActive(generation: int)
    requires generation > 0
    ensures CountActive([generation, 0, 0, 0]) == 1
  {
    var g := [generation, 0, 0, 0];
    assert g[..3] == [generation, 0, 0] && g[..3][..2] == [generation, 0] && g[..3][..2][..1] == [generation];
    assert [generation][..0] == [];
    assert CountActive([generation]) == 1;
    assert CountActive([generation, 0]) == 1;
    assert CountActive([generation, 0, 0]) == 1;
  }

  /** A device that does not take the request refuses the plan. */
  lemma SoloRefused(d: Device, c: Config, l: Leases, id: ReqId, q: Request, steps: int, tiling: Tiling, ctx: Context)
    requires Safe(l) && SoloReady(c, q, steps) && 1 <= steps <= MAX_EPOCH_STEPS && |q.tokens| - 1 + steps <= LOGICAL_CAPACITY
    requires 0 <= q.tokens[|q.tokens| - 1] < VOCAB_SIZE && 0 <= q.eos < VOCAB_SIZE && !Taken(d, SoloEntry(l, id, q))
    ensures var p := SoloPlan(c, l, id, q, steps);
            && ValidPlan(p) && Code(ArgsOf(p, NoImport, tiling)) == ACCEPTED
            && Epoch(d.(ready := true), Fed(ArgsOf(p, NoImport, tiling)), ctx).1.status == RESIDENT_CONTINUITY
  {
    var p := SoloPlan(c, l, id, q, steps);
    SoloPlanValid(c, l, id, q, steps);
    SoloArgs(c, l, id, q, steps, tiling);
    assert p.requests[0] in p.requests && !Taken(d.(ready := true), p.requests[0]);
    ContinuityOfPlan(d.(ready := true), p, NoImport, tiling);
    ContinuityStatus(d.(ready := true), ArgsOf(p, NoImport, tiling), ctx);
  }
}
