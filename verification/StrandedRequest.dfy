/** The smallest case in which lockstep fails: a request with a one-token prompt that has taken one step on the host
    is planned at position 1 without its KV, and the device refuses the plan. */
module StrandedRequest {
  import opened Layout
  import opened Flow
  import opened EpochSpec
  import opened EpochRows
  import opened Bridge
  import opened Contract
  import opened RowLeases
  import opened Scheduler
  import opened SchedulerSafety
  import opened Sidecar
  import opened Lockstep
  import opened LockstepRuns
  import opened SoloRounds

  const SETUP := Setup(Config(8, 8), 4)
  const LONE := Request(1, [0, 5], 1, 8, 9, true)
  const ENTRY := PlanRequest("a", 0, 1, 5, 1, 2, 9, [0], HostOwned, false)
  const PLAN := Plan(CONTRACT_VERSION, BATCH, 4, 8, [ENTRY], [1, 0, 0, 0])

  function Start(): Sys { Sys(Runs(NO_LEASES, "a", LONE), Initial()) }

  function Arriving(): Request { Request(1, [0], 0, 8, 9, true) }

  function Decides(visible: seq<ReqId>, slots: int): Choice { Choice([], ["a"], map["a" := 1], true) }

  lemma LoneStepped()
    ensures !Stops(LONE) && Stepped(Arriving(), 5) == LONE
  {
    assert [0] + [5] == [0, 5];
  }

  /** The state is reached: the request arrives, and its first round is not plain, so the host runs it. */
  lemma StartReached() returns (start: Sys, events: seq<Event>)
    ensures start == Sys(NoRequests(NO_LEASES), Initial()) && Leads(SETUP, start, events, Start())
  {
    LoneStepped();
    start, events := FirstHostStep(SETUP, Initial(), "a", Arriving(), 5);
  }

  function Computed(): Request { LONE.(computed := 2) }

  lemma LoneChoice()
    ensures var v := Start().v;
            && !Isolated(v, 4) && Decision(v, 4, Decides) == Choice([], ["a"], map["a" := 1], true) && LawfulBase(v, 4, Decides)
            && Rescheduled(v, false, Decides(["a"], 4)) == Runs(NO_LEASES, "a", Computed())
  {
    assert [] + (["a"] + []) == ["a"];
  }

  lemma LonePlan()
    ensures SoloReady(SETUP.config, Computed(), 4) && SoloPlan(SETUP.config, NO_LEASES, "a", Computed(), 4) == PLAN
  {
  }

  /** The scheduler offers it in a plan. */
  lemma LonePlanned()
    ensures LawfulBase(Start().v, 4, Decides)
    ensures Schedules(SETUP.config, 4, Start().v, Decides, OneBlock).1 == Accepted(Output(["a"], map["a" := 1], true), Some(PLAN), false)
  {
    LoneChoice();
    LonePlan();
    SoloPlanned(SETUP.config, NO_LEASES, "a", Computed(), 4);
  }

  /** And the device refuses it with status 212, whatever its context. */
  lemma LoneRefused(tiling: Tiling, ctx: Context)
    ensures ValidPlan(PLAN) && Code(ArgsOf(PLAN, NoImport, tiling)) == ACCEPTED
    ensures Epoch(Start().d, Fed(ArgsOf(PLAN, NoImport, tiling)), ctx).1.status == RESIDENT_CONTINUITY
  {
    LonePlan();
    SoloRefused(Start().d, SETUP.config, NO_LEASES, "a", Computed(), 4, tiling, ctx);
  }
}
