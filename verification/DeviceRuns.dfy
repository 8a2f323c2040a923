/** Device rounds of a lone request with a decoder that always answers: they are possible whenever the epoch fits the
    capacity, so the runs the other files speak of exist. */
module DeviceRuns {
  import opened Layout
  import opened Flow
  import opened EpochSpec
  import opened EpochRows
  import opened Bridge
  import opened Contract
  import opened RowLeases
  import opened Scheduler
  import opened SchedulerSafety
  import opened Sidecar
  import opened Lockstep
  import opened LockstepRuns
  import opened EpochSchedule
  import opened LoneRuns
  import opened CapacityRuns
  import opened SoloRounds
  import opened AnsweringDecoder

  /** The base scheduler admits the request if it waits, and schedules one token of it. */
  function Decides(id: ReqId): Base { (visible, slots) => Choice(if visible == [] then [id] else [], [id], map[id := 1], true) }

  lemma DecidesIt(u: Setup, v: View, id: ReqId)
    requires Consistent(v) && Lone(v, id) && v.requests[id].computed < |v.requests[id].tokens|
    ensures Schedule1(u, v, Decides(id), id)
  {
    LoneNotIsolated(v, u.maxRunning, id);
    assert Decision(v, u.maxRunning, Decides(id)).ids == [id];
  }

  /** A lone request with a one-token prompt within the vocabulary. */
  ghost predicate Within(u: Setup, v: View, id: ReqId) {
    && ValidConfig(u.config) && u.config.capacity <= LOGICAL_CAPACITY && Lone(v, id)
    && var q := v.requests[id];
       && q.prompt == 1 && RequestOk(q) && q.eligible
       && 0 <= q.eos < VOCAB_SIZE && 0 <= q.tokens[|q.tokens| - 1] < VOCAB_SIZE
  }

  /** One that the device holds, or that nobody has stepped and whose generation will not be the warm-up's. */
  ghost predicate Runnable(u: Setup, v: View, id: ReqId) {
    && Within(u, v, id)
    && (Resident(v, id) || (Made(v.requests[id]) == 0 && id !in v.leases.rows && v.leases.next < WARMUP_GENERATION))
  }

  function AnsweredRound(id: ReqId, token: nat, tiling: Tiling): Event {
    DeviceRound(Decides(id), OneBlock, NoImport, tiling, Always(token, Unwritten()))
  }

  lemma OneCounted(generation: Row4, row: nat)
    requires row < BATCH && generation[row] != 0 && forall r: nat | r < BATCH && r != row :: generation[r] == 0
    ensures CountActive(generation) == 1
  {
    var g := generation;
    assert g[..3] == [g[0], g[1], g[2]] && g[..3][..2] == [g[0], g[1]] && g[..3][..2][..1] == [g[0]];
    assert [g[0]][..0] == [];
    assert CountActive([g[0]]) == if g[0] != 0 then 1 else 0;
    assert CountActive([g[0], g[1]]) == CountActive([g[0]]) + if g[1] != 0 then 1 else 0;
    assert CountActive([g[0], g[1], g[2]]) == CountActive([g[0], g[1]]) + if g[2] != 0 then 1 else 0;
    assert CountActive(g) == CountActive([g[0], g[1], g[2]]) + if g[3] != 0 then 1 else 0;
  }

  /** The bridge takes a plan of one request within the vocabulary. */
  lemma LoneArgs(p: Plan, q: PlanRequest, tiling: Tiling)
    requires ValidPlan(p) && p.graphBatch == BATCH && p.requests == [q] && 1 <= p.maxSteps <= MAX_EPOCH_STEPS && p.capacity <= LOGICAL_CAPACITY
    requires 0 <= q.token < VOCAB_SIZE && 0 <= q.eos < VOCAB_SIZE && 0 <= q.position && !q.importRequired
    ensures var a := ArgsOf(p, NoImport, tiling); Code(a) == ACCEPTED && ImportMatches(a) && ImportFor(p, NoImport)
  {
    var a := ArgsOf(p, NoImport, tiling);
    ArgsAt(p, NoImport, tiling);
    assert q in p.requests && ValidRequest(p, q);
    forall r: nat | r < BATCH && r != q.row
      ensures a.generation[r] == 0
    {
      assert forall t | t in p.requests :: t == q;
      assert !exists t :: t in p.requests && t.row == r;
    }
    OneCounted(a.generation, q.row);
    assert forall r: nat | r < BATCH :: !RowRejected(a, r);
  }

  /** The entry of a lone request in its plan. */
  ghost predicate LoneEntry(v: View, id: ReqId, l: Leases, q: PlanRequest) {
    && q.id == id && id in v.requests && id in l.generations && v.requests[id].tokens != []
    && q.generation == l.generations[id] && (q.owner.DeviceOwned? <==> id in l.owned) && !q.importRequired && q.eos == v.requests[id].eos
    && q.position == |v.requests[id].tokens| - 1 && q.token == v.requests[id].tokens[q.position]
  }

  lemma LoneEntryIs(v: View, w: View, out: Output, blocks: Blocks, id: ReqId, q: PlanRequest)
    requires id in out.ids && RequestScheduled(v, w, out, id) && v.requests[id].prompt == 1 && w.requests[id].computed == |w.requests[id].tokens|
    requires Enterable(w.requests, w.leases, blocks, id) && q == EntryOf(w.leases, id, w.requests[id], blocks(id))
    ensures LoneEntry(v, id, w.leases, q)
  {
  }

  lemma EntryOfLone(c: Config, v: View, w: View, out: Output, blocks: Blocks, id: ReqId, p: Plan) returns (q: PlanRequest)
    requires ValidConfig(c) && out.ids == [id] && RequestScheduled(v, w, out, id) && v.requests[id].prompt == 1 && Remaining(v.requests[id]) >= 1
    requires AllLeased(w.requests, w.leases, out.ids) && Plannable(c, w.requests, w.leases, blocks, out.ids)
    requires p == PlanOf(c, w.requests, w.leases, blocks, out.ids)
    ensures LoneEntry(v, id, w.leases, q)
    ensures p.requests == [q] && p.capacity == c.capacity && p.maxSteps == LoneSteps(c, Remaining(v.requests[id]))
  {
    EntryAt(c, w.requests, w.leases, blocks, out.ids, 0);
    LoneRequest(c, w.requests, id);
    q := p.requests[0];
    assert id in out.ids && p.requests == [q];
    LoneEntryIs(v, w, out, blocks, id, q);
  }

  /** The round plans the request, with its old generation or the next one. */
  lemma LonePlanIs(u: Setup, v: View, id: ReqId) returns (w: View, p: Plan, q: PlanRequest)
    requires Consistent(v) && Within(u, v, id) && !Full(u.config, v.requests[id])
    requires id in v.leases.rows || v.leases.next < GENERATION_LIMIT
    ensures Schedule1(u, v, Decides(id), id) && Schedules(u.config, u.maxRunning, v, Decides(id), OneBlock).0 == w
    ensures var s := Schedules(u.config, u.maxRunning, v, Decides(id), OneBlock).1; s.Accepted? && s.plan == Some(p)
    ensures ValidPlan(p) && p.graphBatch == BATCH && p.requests == [q] && p.capacity == u.config.capacity
    ensures LoneEntry(v, id, w.leases, q) && p.maxSteps == LoneSteps(u.config, Remaining(v.requests[id]))
  {
    DecidesIt(u, v, id);
    LoneVerdict(u, v, Decides(id), OneBlock, id);
    RoundHolds(u, v, Decides(id), OneBlock);
    LoneScheduled(u, v, Decides(id), OneBlock, id);
    var scheduling := Schedules(u.config, u.maxRunning, v, Decides(id), OneBlock).1;
    w, p := Schedules(u.config, u.maxRunning, v, Decides(id), OneBlock).0, scheduling.plan.value;
    q := EntryOfLone(u.config, v, w, scheduling.out, OneBlock, id, p);
  }

  /** A request without a lease gets the next generation. */
  lemma LoneLease(u: Setup, v: View, id: ReqId)
    requires Consistent(v) && Within(u, v, id) && id !in v.leases.rows && v.leases.next < GENERATION_LIMIT
    ensures Schedule1(u, v, Decides(id), id) && Schedules(u.config, u.maxRunning, v, Decides(id), OneBlock).0.leases == First(v.leases, id)
  {
    DecidesIt(u, v, id);
    LoneSchedules(u, v, Decides(id), OneBlock, id);
    var choice := Decision(v, u.maxRunning, Decides(id));
    FirstPlanned(u.config, Rescheduled(v, false, choice).requests, v.leases, OneBlock, OutputOf(choice), id);
  }

  lemma FirstPlanned(c: Config, requests: Requests, l: Leases, blocks: Blocks, out: Output, id: ReqId)
    requires Safe(l) && id !in l.rows && l.next < GENERATION_LIMIT && id in requests
    requires out.ids == [id] && out.counts == map[id := 1] && out.plain
    ensures Planned(c, [id], requests, l, blocks, out).0 == First(l, id)
  {
    SoloAssign(l, id);
    assert PreChecks([id], out);
  }

  /** The device takes it. */
  lemma LoneTaken(u: Setup, s: Sys, id: ReqId, w: View, p: Plan, q: PlanRequest)
    requires Inv(s) && Runnable(u, s.v, id) && Schedule1(u, s.v, Decides(id), id)
    requires var (w', scheduling) := Schedules(u.config, u.maxRunning, s.v, Decides(id), OneBlock);
             w == w' && scheduling.Accepted? && scheduling.plan == Some(p)
    requires ValidPlan(p) && p.graphBatch == BATCH && p.requests == [q] && LoneEntry(s.v, id, w.leases, q)
    ensures 0 <= q.row < BATCH && Taken(s.d.(ready := true), q)
  {
    OfferedPlan(u, s, Decides(id), OneBlock);
    assert q in p.requests && ValidRequest(p, q) && KnownToDevice(s.d, p, q);
    RoundHolds(u, s.v, Decides(id), OneBlock);
    LoneOwned(u, s, id, w);
    if id !in s.v.leases.rows { LoneLease(u, s.v, id); }
    TakenOrTurnedDown(s.d, p, q);
  }

  lemma LoneOwned(u: Setup, s: Sys, id: ReqId, w: View)
    requires Inv(s) && Runnable(u, s.v, id) && Schedule1(u, s.v, Decides(id), id)
    requires w == Schedules(u.config, u.maxRunning, s.v, Decides(id), OneBlock).0
    requires Schedules(u.config, u.maxRunning, s.v, Decides(id), OneBlock).1.Accepted?
    ensures id in w.leases.owned <==> id in s.v.leases.owned
  {
    var scheduling := Schedules(u.config, u.maxRunning, s.v, Decides(id), OneBlock).1;
    RoundHolds(u, s.v, Decides(id), OneBlock);
    assert id in scheduling.out.ids;
  }

  lemma TakenAdmitted(d: Device, p: Plan, q: PlanRequest, tiling: Tiling)
    requires ValidPlan(p) && p.graphBatch == BATCH && p.requests == [q] && 0 <= q.row < BATCH && Taken(d, q)
    requires var a := ArgsOf(p, NoImport, tiling); Code(a) == ACCEPTED && ImportMatches(a) && ImportFor(p, NoImport)
    ensures var e := Fed(ArgsOf(p, NoImport, tiling)); InputStatus(e) == OK && Admit(d, e).1 == OK
  {
    var a := ArgsOf(p, NoImport, tiling);
    FedValid(a);
    ImportEffect(d, Fed(a));
    ContinuityOfPlan(d, p, NoImport, tiling);
    assert forall t | t in p.requests :: t == q;
    assert forall t | t in p.requests :: ValidRequest(p, t);
  }

  /** As long as the next epoch fits, a device round can happen in which the request makes only `token`. */
  lemma RoundPossible(u: Setup, s: Sys, id: ReqId, token: nat, tiling: Tiling)
    requires Inv(s) && Runnable(u, s.v, id) && !Full(u.config, s.v.requests[id]) && token < VOCAB_SIZE
    ensures Enabled(u, s, AnsweredRound(id, token, tiling))
    ensures forall t | t in MadeIn(u, s, AnsweredRound(id, token, tiling), id) :: t == token
  {
    var p := LoneAnswers(u, s, id, token, tiling);
    AnsweredMade(u, s, id, token, tiling);
  }

  lemma EntryInRange(u: Setup, v: View, id: ReqId, l: Leases, p: Plan, q: PlanRequest)
    requires Within(u, v, id) && LoneEntry(v, id, l, q) && p.maxSteps == LoneSteps(u.config, Remaining(v.requests[id]))
    ensures 1 <= p.maxSteps <= MAX_EPOCH_STEPS && 0 <= q.token < VOCAB_SIZE && 0 <= q.eos < VOCAB_SIZE && 0 <= q.position
  {
  }

  lemma LoneAnswers(u: Setup, s: Sys, id: ReqId, token: nat, tiling: Tiling) returns (p: Plan)
    requires Inv(s) && Runnable(u, s.v, id) && !Full(u.config, s.v.requests[id]) && token < VOCAB_SIZE
    ensures Schedule1(u, s.v, Decides(id), id)
    ensures var scheduling := Schedules(u.config, u.maxRunning, s.v, Decides(id), OneBlock).1; scheduling.Accepted? && scheduling.plan == Some(p)
    ensures var a := ArgsOf(p, NoImport, tiling);
            && Code(a) == ACCEPTED && ImportMatches(a) && ImportFor(p, NoImport)
            && var end := Epoch(s.d.(ready := true), Fed(a), Always(token, Unwritten())).1; end.status == OK && OnlyToken(end.l.lanes, token)
  {
    assert id in s.v.leases.owned ==> id in s.v.leases.rows;
    var w, q;
    w, p, q := LonePlanIs(u, s.v, id);
    LoneTaken(u, s, id, w, p, q);
    EntryInRange(u, s.v, id, w.leases, p, q);
    LoneSucceeds(s.d.(ready := true), p, q, token, tiling);
  }

  lemma AnsweredMade(u: Setup, s: Sys, id: ReqId, token: nat, tiling: Tiling)
    requires Inv(s) && Enabled(u, s, AnsweredRound(id, token, tiling))
    requires var scheduling := Schedules(u.config, u.maxRunning, s.v, Decides(id), OneBlock).1;
             OnlyToken(Epoch(s.d.(ready := true), Fed(ArgsOf(scheduling.plan.value, NoImport, tiling)), Always(token, Unwritten())).1.l.lanes, token)
    ensures forall t | t in MadeIn(u, s, AnsweredRound(id, token, tiling), id) :: t == token
  {
  }

  lemma LoneSucceeds(d: Device, p: Plan, q: PlanRequest, token: nat, tiling: Tiling)
    requires ValidPlan(p) && p.graphBatch == BATCH && p.requests == [q] && 1 <= p.maxSteps <= MAX_EPOCH_STEPS && p.capacity <= LOGICAL_CAPACITY
    requires 0 <= q.token < VOCAB_SIZE && 0 <= q.eos < VOCAB_SIZE && 0 <= q.position && !q.importRequired
    requires 0 <= q.row < BATCH && Taken(d, q) && token < VOCAB_SIZE
    ensures var a := ArgsOf(p, NoImport, tiling);
            && Code(a) == ACCEPTED && ImportMatches(a) && ImportFor(p, NoImport)
            && var end := Epoch(d, Fed(a), Always(token, Unwritten())).1; end.status == OK && OnlyToken(end.l.lanes, token)
  {
    LoneArgs(p, q, tiling);
    TakenAdmitted(d, p, q, tiling);
    AdmittedSucceeds(d, Fed(ArgsOf(p, NoImport, tiling)), token, Unwritten());
  }

  // ----- runs

  /** After its round the request is done, or can go on. */
  ghost predicate GoesAgain(u: Setup, v: View, v': View, id: ReqId)
    requires ValidConfig(u.config) && id in v.requests && Remaining(v.requests[id]) >= 1
  {
    && id in v'.leases.owned && (id in v'.requests <==> LoneSteps(u.config, Remaining(v.requests[id])) < Remaining(v.requests[id]))
    && if id in v'.requests then
         && Runnable(u, v', id) && Resident(v', id) && Remaining(v'.requests[id]) < Remaining(v.requests[id])
         && v'.requests[id] == v.requests[id].(tokens := v'.requests[id].tokens, computed := v'.requests[id].computed)
       else |v.requests[id].tokens| - 1 + Remaining(v.requests[id]) <= u.config.capacity
  }

  lemma RoundGoes(u: Setup, s: Sys, id: ReqId, token: nat, tiling: Tiling)
    requires Inv(s) && Runnable(u, s.v, id) && !Full(u.config, s.v.requests[id]) && token < VOCAB_SIZE && token != s.v.requests[id].eos
    ensures Enabled(u, s, AnsweredRound(id, token, tiling))
    ensures var s' := After(u, s, AnsweredRound(id, token, tiling)); Inv(s') && GoesAgain(u, s.v, s'.v, id)
  {
    RoundPossible(u, s, id, token, tiling);
    var e := AnsweredRound(id, token, tiling);
    LoneRound(u, s, e, id);
    EventKeeps(u, s, e);
    MadeGoes(u, s.v, After(u, s, e), id, token, MadeIn(u, s, e, id));
  }

  lemma MadeGoes(u: Setup, v: View, s': Sys, id: ReqId, token: nat, made: seq<int>)
    requires Runnable(u, v, id) && !Full(u.config, v.requests[id]) && token < VOCAB_SIZE && Inv(s')
    requires WentOn(v, s'.v, id, made) && |made| == LoneSteps(u.config, Remaining(v.requests[id])) && forall t | t in made :: t == token
    ensures GoesAgain(u, v, s'.v, id)
  {
    if id in s'.v.requests {
      var q := s'.v.requests[id];
      assert made[|made| - 1] in made && RequestOk(q);
      assert q.tokens[|q.tokens| - 1] == made[|made| - 1];
    }
  }

  /** The request is done, if its budget fits the capacity; otherwise its next epoch does not. */
  ghost predicate AtEnd(u: Setup, v: View, id: ReqId, q0: Request)
    requires ValidConfig(u.config)
  {
    if Admissible(u.config, q0) then id !in v.requests && id in v.leases.owned
    else Resident(v, id) && Runnable(u, v, id) && Full(u.config, v.requests[id]) && v.requests[id].prompt == q0.prompt
  }

  lemma RunsToEnd(u: Setup, start: Sys, before: seq<Event>, s: Sys, id: ReqId, q0: Request, token: nat, tiling: Tiling)
    returns (events: seq<Event>, end: Sys)
    requires Leads(u, start, before, s) && Inv(s) && Runnable(u, s.v, id) && token < VOCAB_SIZE && token != q0.eos
    requires s.v.requests[id] == q0.(tokens := s.v.requests[id].tokens, computed := s.v.requests[id].computed)
    requires Resident(s.v, id) || !Full(u.config, s.v.requests[id])
    ensures Leads(u, start, events, end) && Inv(end) && AtEnd(u, end.v, id, q0)
    decreases Remaining(s.v.requests[id])
  {
    var q := s.v.requests[id];
    if Full(u.config, q) {
      if Admissible(u.config, q0) { AdmissibleNeverFull(u.config, q); }
      events, end := before, s;
    } else {
      RoundGoes(u, s, id, token, tiling);
      var e := AnsweredRound(id, token, tiling);
      RunNext(u, start, before, s, e);
      var s' := After(u, s, e);
      if id in s'.v.requests {
        events, end := RunsToEnd(u, start, before + [e], s', id, q0, token, tiling);
      } else {
        events, end := before + [e], s';
      }
    }
  }

  /** A new request with a one-token prompt within the vocabulary. */
  ghost predicate OneToken(q: Request) {
    NewRequest(q) && q.prompt == 1 && q.eligible && 0 <= q.eos < VOCAB_SIZE && 0 <= q.tokens[0] < VOCAB_SIZE
  }

  lemma ArrivesRunnable(u: Setup, d: Device, id: ReqId, q: Request)
    requires ValidConfig(u.config) && u.config.capacity <= LOGICAL_CAPACITY && Fresh(Sys(NoRequests(NO_LEASES), d)) && OneToken(q)
    ensures var start, s := Sys(NoRequests(NO_LEASES), d), Sys(Waits(NO_LEASES, id, q), d);
            Leads(u, start, [Arrive(id, q)], s) && Inv(s) && Runnable(u, s.v, id) && !Full(u.config, q)
  {
    var start := Sys(NoRequests(NO_LEASES), d);
    NothingYet(NO_LEASES, d);
    Arrives(u, NO_LEASES, d, id, q);
    RunNext(u, start, [], start, Arrive(id, q));
    assert [] + [Arrive(id, q)] == [Arrive(id, q)];
  }

  /** For every such request there is a run to its end. If its budget fits the capacity it is done, and the device still
      owns its id. If not, the next round that schedules it raises in the scheduler, and it can be scheduled. */
  lemma LoneRunEnds(u: Setup, d: Device, id: ReqId, q: Request, token: nat, tiling: Tiling) returns (events: seq<Event>, end: Sys)
    requires ValidConfig(u.config) && u.config.capacity <= LOGICAL_CAPACITY && Fresh(Sys(NoRequests(NO_LEASES), d)) && OneToken(q)
    requires token < VOCAB_SIZE && token != q.eos
    ensures Leads(u, Sys(NoRequests(NO_LEASES), d), events, end)
    ensures Admissible(u.config, q) ==> id !in end.v.requests && id in end.v.leases.owned
    ensures !Admissible(u.config, q) ==>
              && id in end.v.requests && Schedule1(u, end.v, Decides(id), id)
              && Schedules(u.config, u.maxRunning, end.v, Decides(id), OneBlock).1.Refused?
  {
    ArrivesRunnable(u, d, id, q);
    events, end := RunsToEnd(u, Sys(NoRequests(NO_LEASES), d), [Arrive(id, q)], Sys(Waits(NO_LEASES, id, q), d), id, q, token, tiling);
    if !Admissible(u.config, q) {
      DecidesIt(u, end.v, id);
      LoneVerdict(u, end.v, Decides(id), OneBlock, id);
    }
  }

  /** A request that asks for more than the capacity holds, raising in the end. */
  lemma OverCapacityRaises(tiling: Tiling) returns (events: seq<Event>, end: Sys)
    ensures var u, start := Setup(Config(8, 8), 4), Sys(NoRequests(NO_LEASES), Initial());
            && Leads(u, start, events, end) && "a" in end.v.requests && Schedule1(u, end.v, Decides("a"), "a")
            && Schedules(u.config, 4, end.v, Decides("a"), OneBlock).1.Refused?
  {
    events, end := LoneRunEnds(Setup(Config(8, 8), 4), Initial(), "a", Request(1, [0], 0, 20, 9, true), 0, tiling);
  }
}
