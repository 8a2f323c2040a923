/** The other case in which lockstep fails: the last generation the allocator hands out is the one the warm-up has left
    on row 0. Its holder is refused, unless it looks exactly like the continuation of the warm-up: then it goes on from
    the warm-up's KV. */
module WarmupCollision {
  import opened Layout
  import opened Flow
  import opened EpochSpec
  import opened EpochRows
  import opened Bridge
  import opened Contract
  import opened RowLeases
  import opened Scheduler
  import opened Sidecar
  import opened Lockstep
  import opened LockstepRuns
  import opened EpochSchedule
  import opened LoneRuns
  import opened CapacityRuns
  import opened SoloRounds
  import opened AnsweringDecoder
  import opened DeviceRuns

  const WARMUP_TOKEN := 11690

  /** The warm-up request: one step of row 0. */
  function WarmupArgs(tiling: Tiling): Args {
    Args(1, 1, [WARMUP_TOKEN, 0, 0, 0], [0, 0, 0, 0], [1, 0, 0, 0],
         [CONFIGURED_EOS, CONFIGURED_EOS, CONFIGURED_EOS, CONFIGURED_EOS], [WARMUP_GENERATION, 0, 0, 0], NoImport, tiling)
  }

  /** Row 0 remembers the warm-up at position 1, the other rows nothing. */
  ghost predicate Warm(d: Device) {
    && d.rows[0].generation == WARMUP_GENERATION && d.rows[0].position == 1 && d.rows[0].length == 2 && d.rows[0].valid == 1
    && forall r: nat | 1 <= r < BATCH :: d.rows[r] == NO_META
  }

  lemma WarmupAccepted(tiling: Tiling)
    ensures Code(WarmupArgs(tiling)) == ACCEPTED && ImportMatches(WarmupArgs(tiling))
  {
    OneActive(WARMUP_GENERATION);
  }

  /** A row of the warm-up, from what it has made. */
  lemma WarmupRow(tiling: Tiling, calls: nat, m: Meta, made: seq<int>, r: nat)
    requires r < BATCH && LaneEnd(Fed(WarmupArgs(tiling)), calls, made, r) && calls <= 1
    requires RowMoved(NO_META, Fed(WarmupArgs(tiling)).rows[r], m, made)
    ensures if r == 0 then m.generation == WARMUP_GENERATION && m.position == 1 && m.length == 2 && m.valid == 1 else m == NO_META
  {
    assert Fed(WarmupArgs(tiling)).rows[r] == FedRow(WarmupArgs(tiling), r);
  }

  /** What a successful warm-up of a new device leaves. */
  lemma WarmupLeaves(tiling: Tiling, ctx: Context)
    requires Epoch(Initial().(ready := true), Fed(WarmupArgs(tiling)), ctx).1.status == OK
    ensures Warm(Epoch(Initial().(ready := true), Fed(WarmupArgs(tiling)), ctx).0)
  {
    WarmupAccepted(tiling);
    var d, e := Initial().(ready := true), Fed(WarmupArgs(tiling));
    var (d', end) := Epoch(d, e, ctx);
    EpochShape(d, e, ctx, d', end);
    forall r: nat | r < BATCH
      ensures if r == 0 then d'.rows[r].generation == WARMUP_GENERATION && d'.rows[r].position == 1 && d'.rows[r].length == 2 && d'.rows[r].valid == 1
              else d'.rows[r] == NO_META
    {
      assert LaneEnd(e, end.l.calls, end.l.lanes[r].made, r) && RowMoved(d.rows[r], e.rows[r], d'.rows[r], end.l.lanes[r].made);
      WarmupRow(tiling, end.l.calls, d'.rows[r], end.l.lanes[r].made, r);
    }
  }

  // ----- all generations but the last

  const SETUP := Setup(Config(8, 8), 4)

  function Name(n: int): ReqId { if n % 2 == 0 then "even" else "odd" }

  /** An ineligible one-token request, which the host runs and ends. */
  function Short(): Request { Request(1, [0], 0, 8, 9, false) }

  /** The leases when `n` is the next generation and the request before has just gone. */
  function LeasesAt(n: int): Leases
    requires n >= 1
  {
    if n == 1 then NO_LEASES else Leases(map[Name(n - 1) := 0], map[Name(n - 1) := n - 1], {}, n)
  }

  lemma LeasesAtSafe(n: int, d: Device)
    requires 1 <= n <= GENERATION_LIMIT && Warm(d)
    ensures Safe(LeasesAt(n)) && Name(n) !in LeasesAt(n).rows && First(LeasesAt(n), Name(n)) == LeasesAt(n + 1)
    ensures DeviceBelow(LeasesAt(n), d)
  {
  }

  lemma ShortStops()
    ensures NewRequest(Short()) && Stops(Stepped(Short(), 9)) && !Scheduled(Short(), 1).eligible
  {
  }

  lemma OneMoreGeneration(n: int, d: Device)
    requires 1 <= n < WARMUP_GENERATION && Warm(d) && Inv(Sys(NoRequests(LeasesAt(n)), d))
    ensures Inv(Sys(NoRequests(LeasesAt(n + 1)), d))
    ensures Leads(SETUP, Sys(NoRequests(LeasesAt(n)), d), [Arrive(Name(n), Short()), HostStep(Name(n), true, 9)],
                  Sys(NoRequests(LeasesAt(n + 1)), d))
  {
    LeasesAtSafe(n, d);
    ShortStops();
    SoloRejected(SETUP.config, LeasesAt(n), Name(n), Scheduled(Short(), 1));
    ArrivesAndSteps(SETUP, LeasesAt(n), LeasesAt(n + 1), d, Name(n), Short(), true, 9);
  }

  /** The events lead from one scheduler without requests to another, which is in step. */
  ghost predicate Passes(d: Device, k: Leases, events: seq<Event>, l: Leases) {
    Inv(Sys(NoRequests(l), d)) && Leads(SETUP, Sys(NoRequests(k), d), events, Sys(NoRequests(l), d))
  }

  lemma PassesNone(d: Device, l: Leases) returns (events: seq<Event>)
    requires Warm(d) && l == LeasesAt(1)
    ensures Passes(d, NO_LEASES, events, l)
  {
    LeasesAtSafe(1, d);
    NothingYet(NO_LEASES, d);
    events := [];
  }

  lemma PassesFurther(d: Device, j: Leases, first: seq<Event>, k: Leases, second: seq<Event>, l: Leases) returns (events: seq<Event>)
    requires Passes(d, j, first, k) && Passes(d, k, second, l)
    ensures Passes(d, j, events, l)
  {
    LeadsFurther(SETUP, Sys(NoRequests(j), d), first, Sys(NoRequests(k), d), second, Sys(NoRequests(l), d));
    events := first + second;
  }

  lemma PassesOne(n: int, d: Device, l: Leases, m: Leases) returns (events: seq<Event>)
    requires 1 <= n < WARMUP_GENERATION && Warm(d) && Inv(Sys(NoRequests(l), d)) && l == LeasesAt(n) && m == LeasesAt(n + 1)
    ensures Passes(d, l, events, m)
  {
    OneMoreGeneration(n, d);
    events := [Arrive(Name(n), Short()), HostStep(Name(n), true, 9)];
  }

  /** Every generation up to the warm-up's is reached. */
  lemma {:induction false} GenerationsPass(n: int, d: Device, l: Leases) returns (events: seq<Event>)
    requires 1 <= n <= WARMUP_GENERATION && Warm(d) && l == LeasesAt(n)
    ensures Passes(d, NO_LEASES, events, l)
    decreases n
  {
    if n == 1 {
      events := PassesNone(d, l);
    } else {
      var k := LeasesAt(n - 1);
      var before := GenerationsPass(n - 1, d, k);
      var one := PassesOne(n - 1, d, k, l);
      events := PassesFurther(d, NO_LEASES, before, k, one, l);
    }
  }

  // ----- the collision

  function Unlucky(): Request { Request(1, [0], 0, 8, 9, true) }

  /** Its plan: generation 2^31 - 1 on row 0, from position 0. */
  const PLAN := Plan(CONTRACT_VERSION, BATCH, 8, 8, [PlanRequest("late", 0, WARMUP_GENERATION, 0, 0, 1, 9, [0], HostOwned, false)], [1, 0, 0, 0])

  lemma UnluckyPlan()
    ensures SoloReady(SETUP.config, Scheduled(Unlucky(), 1), 8)
    ensures SoloPlan(SETUP.config, LeasesAt(WARMUP_GENERATION), "late", Scheduled(Unlucky(), 1), 8) == PLAN
  {
  }

  /** From a warm device a run reaches a state in which the scheduler plans a request that has never stepped anywhere,
      and the device refuses the plan with status 212. */
  lemma WarmupCollides(d: Device, tiling: Tiling, ctx: Context) returns (events: seq<Event>, s: Sys)
    requires Warm(d)
    ensures Leads(SETUP, Sys(NoRequests(NO_LEASES), d), events, s) && Inv(s) && s.d == d
    ensures LawfulBase(s.v, 4, Admits("late", true))
    ensures Schedules(SETUP.config, 4, s.v, Admits("late", true), OneBlock).1 == Accepted(Output(["late"], map["late" := 1], true), Some(PLAN), false)
    ensures ValidPlan(PLAN) && Code(ArgsOf(PLAN, NoImport, tiling)) == ACCEPTED
    ensures Epoch(d.(ready := true), Fed(ArgsOf(PLAN, NoImport, tiling)), ctx).1.status == RESIDENT_CONTINUITY
  {
    var l := LeasesAt(WARMUP_GENERATION);
    events := GenerationsPass(WARMUP_GENERATION, d, l);
    LeasesAtSafe(WARMUP_GENERATION, d);
    Arrives(SETUP, l, d, "late", Unlucky());
    s := Sys(Waits(l, "late", Unlucky()), d);
    RunNext(SETUP, Sys(NoRequests(NO_LEASES), d), events, Sys(NoRequests(l), d), Arrive("late", Unlucky()));
    events := events + [Arrive("late", Unlucky())];
    UnluckyPlanned();
    UnluckyRefused(d, tiling, ctx);
  }

  lemma UnluckyPlanned()
    ensures var v := Waits(LeasesAt(WARMUP_GENERATION), "late", Unlucky());
            && Consistent(v) && LawfulBase(v, 4, Admits("late", true))
            && Schedules(SETUP.config, 4, v, Admits("late", true), OneBlock).1 == Accepted(Output(["late"], map["late" := 1], true), Some(PLAN), false)
  {
    var l := LeasesAt(WARMUP_GENERATION);
    assert Safe(l);
    UnluckyPlan();
    SoloPlanned(SETUP.config, l, "late", Scheduled(Unlucky(), 1), 8);
    SoloRound(SETUP.config, 4, l, "late", Unlucky(), true);
  }

  lemma UnluckyRefused(d: Device, tiling: Tiling, ctx: Context)
    requires Warm(d)
    ensures ValidPlan(PLAN) && Code(ArgsOf(PLAN, NoImport, tiling)) == ACCEPTED
    ensures Epoch(d.(ready := true), Fed(ArgsOf(PLAN, NoImport, tiling)), ctx).1.status == RESIDENT_CONTINUITY
  {
    var l := LeasesAt(WARMUP_GENERATION);
    UnluckyPlan();
    SoloRefused(d, SETUP.config, l, "late", Scheduled(Unlucky(), 1), 8, tiling, ctx);
  }

  // ----- taken for the warm-up

  /** The same request after one host step that samples the warm-up's token. */
  function Lookalike(token: int): Request { Stepped(Unlucky(), token) }

  lemma LookalikePlan(d: Device, l: Leases, token: int) returns (w: View, p: Plan, q: PlanRequest)
    requires Warm(d) && l == LeasesAt(WARMUP_GENERATION) && 0 <= token < VOCAB_SIZE && token == d.rows[0].token != 9
    ensures var v := Runs(l, "late", Lookalike(token));
            && Consistent(v) && Within(SETUP, v, "late") && Schedule1(SETUP, v, Decides("late"), "late")
            && Schedules(SETUP.config, 4, v, Decides("late"), OneBlock).0 == w
            && Schedules(SETUP.config, 4, v, Decides("late"), OneBlock).1.Accepted?
            && Schedules(SETUP.config, 4, v, Decides("late"), OneBlock).1.plan == Some(p)
            && ValidPlan(p) && p.graphBatch == BATCH && p.requests == [q] && p.capacity == 8 && p.maxSteps == LoneSteps(SETUP.config, 7)
            && LoneEntry(v, "late", w.leases, q) && w.leases == First(l, "late")
  {
    LeasesAtSafe(WARMUP_GENERATION, d);
    var v := Runs(l, "late", Lookalike(token));
    assert v.requests["late"].tokens == [0, token];
    w, p, q := LonePlanIs(SETUP, v, "late");
    LoneLease(SETUP, v, "late");
  }

  /** Its entry is offered with the warm-up's generation, token, position and length. */
  lemma LookalikeTaken(d: Device, l: Leases, token: int, w: View, p: Plan, q: PlanRequest)
    requires Warm(d) && l == LeasesAt(WARMUP_GENERATION) && token == d.rows[0].token
    requires ValidPlan(p) && p.graphBatch == BATCH && p.requests == [q] && w.leases == First(l, "late")
    requires LoneEntry(Runs(l, "late", Lookalike(token)), "late", w.leases, q) && q.row == 0
    ensures q.owner.HostOwned? && FromWarmup(q) && d.rows[0].generation == q.generation && SameLease(d.rows[0], q)
  {
    assert q in p.requests && ValidRequest(p, q);
  }

  lemma LookalikeRow(l: Leases, token: int, w: View, p: Plan, q: PlanRequest)
    requires l == LeasesAt(WARMUP_GENERATION) && Safe(l)
    requires var v := Runs(l, "late", Lookalike(token));
             && Consistent(v) && LawfulBase(v, 4, Decides("late"))
             && var (w', scheduling) := Schedules(SETUP.config, 4, v, Decides("late"), OneBlock);
                w == w' && scheduling.Accepted? && scheduling.plan == Some(p)
    requires p.requests == [q] && w.leases == First(l, "late") && q.id == "late"
    ensures q.row == 0
  {
    var v := Runs(l, "late", Lookalike(token));
    RoundHolds(SETUP, v, Decides("late"), OneBlock);
    var ids := Schedules(SETUP.config, 4, v, Decides("late"), OneBlock).1.out.ids;
    EntryAt(SETUP.config, w.requests, w.leases, OneBlock, ids, 0);
  }

  lemma LookalikeReached(d: Device, l: Leases, token: int) returns (events: seq<Event>, s: Sys)
    requires Warm(d) && l == LeasesAt(WARMUP_GENERATION) && token != 9
    ensures s == Sys(Runs(l, "late", Lookalike(token)), d) && Inv(s) && Leads(SETUP, Sys(NoRequests(NO_LEASES), d), events, s)
  {
    var before := GenerationsPass(WARMUP_GENERATION, d, l);
    LeasesAtSafe(WARMUP_GENERATION, d);
    var more;
    more, s := LookalikeSteps(d, l, token);
    LeadsFurther(SETUP, Sys(NoRequests(NO_LEASES), d), before, Sys(NoRequests(l), d), more, s);
    events := before + more;
  }

  lemma LookalikeSteps(d: Device, l: Leases, token: int) returns (more: seq<Event>, s: Sys)
    requires Inv(Sys(NoRequests(l), d)) && "late" !in l.rows && token != 9
    ensures s == Sys(Runs(l, "late", Lookalike(token)), d) && Inv(s) && Leads(SETUP, Sys(NoRequests(l), d), more, s)
  {
    NotPlain(SETUP.config, l, "late", Scheduled(Unlucky(), 1));
    ArrivesAndSteps(SETUP, l, l, d, "late", Unlucky(), false, token);
    more, s := [Arrive("late", Unlucky()), HostStep("late", false, token)], Sys(Runs(l, "late", Lookalike(token)), d);
  }

  /** From a warm device a run reaches a state in which a request with the last generation looks like the warm-up
      continued: a device round can happen, and in it the request goes on from the warm-up's KV. */
  lemma WarmupTakenOver(d: Device, tiling: Tiling) returns (events: seq<Event>, s: Sys, p: Plan, q: PlanRequest)
    requires Warm(d) && 0 <= d.rows[0].token < VOCAB_SIZE && d.rows[0].token != 9
    ensures Leads(SETUP, Sys(NoRequests(NO_LEASES), d), events, s) && Inv(s) && s.d == d && "late" in s.v.requests
    ensures Enabled(SETUP, s, AnsweredRound("late", 0, tiling))
    ensures Schedules(SETUP.config, 4, s.v, Decides("late"), OneBlock).1.plan == Some(p) && p.requests == [q]
    ensures q.id == "late" && q.row == 0 && FromWarmup(q) && !q.importRequired && q.position == 1 && Taken(d, q)
  {
    var l, token := LeasesAt(WARMUP_GENERATION), d.rows[0].token;
    events, s := LookalikeReached(d, l, token);
    var w;
    w, p, q := LookalikePlan(d, l, token);
    LookalikeRow(l, token, w, p, q);
    LookalikeTaken(d, l, token, w, p, q);
    LookalikeSucceeds(d, p, q, token, tiling);
  }

  lemma LookalikeSucceeds(d: Device, p: Plan, q: PlanRequest, token: int, tiling: Tiling)
    requires ValidPlan(p) && p.graphBatch == BATCH && p.requests == [q] && p.capacity == 8 && p.maxSteps == LoneSteps(SETUP.config, 7)
    requires q.row == 0 && q.token == token && 0 <= token < VOCAB_SIZE && q.eos == 9 && q.position == 1 && !q.importRequired
    requires d.rows[0].generation == q.generation && SameLease(d.rows[0], q)
    ensures var a := ArgsOf(p, NoImport, tiling);
            && Code(a) == ACCEPTED && ImportMatches(a) && ImportFor(p, NoImport)
            && Epoch(d.(ready := true), Fed(a), Always(0, Unwritten())).1.status == OK
  {
    LoneSucceeds(d.(ready := true), p, q, 0, tiling);
  }
}
