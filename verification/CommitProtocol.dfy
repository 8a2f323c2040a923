/** The commit-state protocol between plugin, sidecar and bridge, step by step and with every failure: a plan is
    never both fed to the device and run on the host. */
module CommitProtocol {
  import opened Layout
  import opened Flow
  import opened EpochSpec
  import opened EpochRows
  import opened Bridge
  import opened Sidecar
  import opened Contract
  import opened ImportChecksum

  // ----- the bridge's call

  /** What the session does with a feed. */
  datatype Fetched = FeedFailed | FetchFailed | BadOutputs | Messages(history: History, control: seq<int>)

  /** How the import of a call fares before anything is fed. */
  datatype ImportCheck = NoImportSent | FileRead(checksum: int) | DeviceCopied | BadTransferId | FileRefused | CopyRefused

  predicate ImportUsable(check: ImportCheck) { check.NoImportSent? || check.FileRead? || check.DeviceCopied? }

  /** The checksum proof of a successful answer. */
  predicate ChecksumProved(check: ImportCheck, word: int) {
    (check.DeviceCopied? ==> word != 0) && (check.FileRead? ==> ToUint32(word) == check.checksum)
  }

  /** The return code of a call that was fed, from how the session went on. */
  ghost predicate FedCode(a: Args, check: ImportCheck, session: Fetched, code: int)
    requires session.Messages? ==> |session.control| == CONTROL_OUTPUTS
  {
    match session
    case FeedFailed => code == 30
    case FetchFailed => code == 31
    case BadOutputs => code == 32
    case Messages(_, control) =>
      code == if control[3] == 0 && !ChecksumProved(check, control[5]) then 34
              else if exists r: nat :: r < 4 && !(0 <= Executed(control, r) <= a.maxSteps) then 33 else 0
  }

  /** The return code of a call that was not. */
  ghost predicate UnfedCode(a: Args, check: ImportCheck, code: int) {
    code == if a.count < 1 || a.count > 4 || a.maxSteps < 1 || a.maxSteps > 8 || check.BadTransferId? then 10
            else if check.FileRefused? then 13 else if check.CopyRefused? then 35
            else if exists r: nat :: r < 4 && UnfitRow(a, r) then 11 else 12
  }

  /** `resident_epoch_execute`: PREPARED until everything is checked, EXECUTING from just before the feed, COMMITTED
      only when the outputs have been read. */
  method Execute(a: Args, check: ImportCheck, session: Fetched)
    returns (code: int, commit: CommitState, feeds: nat, fetches: nat, o: Option<BridgeOutputs>)
    requires session.Messages? ==> |session.control| == CONTROL_OUTPUTS
    ensures commit.EpochPrepared? <==> feeds == 0
    ensures code == ACCEPTED <==> commit.EpochCommitted?
    ensures fetches <= feeds <= 1 && (fetches == 1 <==> feeds == 1 && !session.FeedFailed?)
    ensures feeds == 1 <==> Code(a) == ACCEPTED && ImportUsable(check)
    ensures if feeds == 1 then FedCode(a, check, session, code) else UnfedCode(a, check, code)
    ensures commit.EpochCommitted? <==>
              && feeds == 1 && session.Messages? && CountsInRange(a.maxSteps, session.control)
              && (session.control[3] == OK ==> ChecksumProved(check, session.control[5]))
    ensures commit.EpochCommitted? <==> o.Some?
    ensures o.Some? ==> CollectedFrom(session.history, session.control, o.value)
  {
    commit, feeds, fetches, o := EpochPrepared, 0, 0, None;
    if a.count < 1 || a.count > BATCH || a.maxSteps < 1 || a.maxSteps > MAX_EPOCH_STEPS || check.BadTransferId? {
      return BAD_CALL, commit, feeds, fetches, o;
    }
    if check.FileRefused? { return BAD_FILE, commit, feeds, fetches, o; }
    if check.CopyRefused? { return BAD_COPY, commit, feeds, fetches, o; }
    var messages;
    code, messages := BuildMessages(a);
    if code != ACCEPTED { return; }
    commit := EpochExecuting;
    feeds := 1;
    if session.FeedFailed? { return BAD_FEED, commit, feeds, fetches, o; }
    fetches := 1;
    if session.FetchFailed? { return BAD_FETCH, commit, feeds, fetches, o; }
    if session.BadOutputs? { return BAD_OUTPUTS, commit, feeds, fetches, o; }
    if session.control[3] == OK && !ChecksumProved(check, session.control[5]) { return BAD_CHECKSUM, commit, feeds, fetches, o; }
    var outputs;
    code, outputs := Collect(a.maxSteps, session.history, session.control);
    if code != ACCEPTED { return; }
    commit := EpochCommitted;
    o := Some(outputs);
  }

  const BAD_FILE := 13
  const BAD_FEED := 30
  const BAD_FETCH := 31
  const BAD_OUTPUTS := 32
  const BAD_COPY := 35

  // ----- the server's loop

  datatype Operation = ExecuteOperation | WarmUpOperation | ImportOperation | DeviceIpcOperation | ShutdownOperation | UnknownOperation

  /** A request as the server reads it, and what the bridge finds when it carries it out. */
  datatype Incoming = Incoming(headerOk: bool, operation: Operation, a: Args, check: ImportCheck, session: Fetched)

  datatype Answer = Answer(transport: int, commit: CommitState, feeds: nat, fetches: nat, outputs: Option<BridgeOutputs>)

  const BAD_HEADER := 69
  const BAD_OPERATION := 71

  predicate Executes(x: Incoming) { x.headerOk && !x.operation.ShutdownOperation? && !x.operation.UnknownOperation? }

  predicate ShutsDown(x: Incoming) { x.headerOk && x.operation.ShutdownOperation? }

  /** An answer never claims PREPARED after a feed, claims COMMITTED exactly when the bridge returned 0, and then has the
      outputs of the request's own call. */
  ghost predicate Answers(x: Incoming, y: Answer)
    requires x.session.Messages? ==> |x.session.control| == CONTROL_OUTPUTS
  {
    && (y.commit.EpochPrepared? <==> y.feeds == 0)
    && y.fetches <= y.feeds <= 1
    && (y.feeds == 1 <==> Executes(x) && Code(x.a) == ACCEPTED && ImportUsable(x.check))
    && (y.commit.EpochCommitted? <==> y.outputs.Some?)
    && (y.outputs.Some? ==>
          Executes(x) && x.session.Messages? && CollectedFrom(x.session.history, x.session.control, y.outputs.value))
    && (Executes(x) ==> if y.feeds == 1 then FedCode(x.a, x.check, x.session, y.transport) else UnfedCode(x.a, x.check, y.transport))
    && (Executes(x) ==> (y.transport == 0 <==> y.commit.EpochCommitted?))
    && (!Executes(x) ==> y.transport == if ShutsDown(x) then 0 else if x.headerOk then 71 else 69)
  }

  /** The request loop: one answer a request, in order, each from an empty response, up to the shutdown request. */
  method Serve(requests: seq<Incoming>) returns (answers: seq<Answer>)
    requires forall x | x in requests :: x.session.Messages? ==> |x.session.control| == CONTROL_OUTPUTS
    ensures |answers| <= |requests| && forall i :: 0 <= i < |answers| ==> Answers(requests[i], answers[i])
    ensures forall i :: 0 <= i < |answers| - 1 ==> !ShutsDown(requests[i])
    ensures |answers| < |requests| ==> answers != [] && ShutsDown(requests[|answers| - 1])
  {
    answers := [];
    while |answers| < |requests|
      invariant |answers| <= |requests| && forall i :: 0 <= i < |answers| ==> Answers(requests[i], answers[i])
      invariant forall i :: 0 <= i < |answers| ==> !ShutsDown(requests[i])
      decreases |requests| - |answers|
    {
      var x := requests[|answers|];
      assert x in requests;
      var y := Answer(0, EpochPrepared, 0, 0, None);
      if !x.headerOk {
        y := y.(transport := BAD_HEADER);
      } else if x.operation.ShutdownOperation? {
        answers := answers + [y];
        return;
      } else if x.operation.UnknownOperation? {
        y := y.(transport := BAD_OPERATION);
      } else {
        var code, commit, feeds, fetches, outputs := Execute(x.a, x.check, x.session);
        y := Answer(code, commit, feeds, fetches, outputs);
      }
      answers := answers + [y];
    }
  }

  /** What an answer delivers: the outputs of the epoch the request's call has run on the device, row by row the tokens made,
      with the status, the decoder calls and the generations of that epoch. */
  lemma AnswerDelivers(x: Incoming, y: Answer, e: EpochInput, end: Ending)
    requires x.session == Messages(HistoryOf(end.l.lanes), Control(e, end)) && Answers(x, y)
    requires forall r: nat | r < BATCH :: |end.l.lanes[r].made| <= MAX_EPOCH_STEPS
    ensures y.outputs.Some? ==>
              && y.outputs.value.status == end.status && y.outputs.value.modelCalls == end.l.calls
              && forall r: nat | r < BATCH ::
                   && y.outputs.value.executed[r] == |end.l.lanes[r].made| && RowTokens(y.outputs.value, r) == end.l.lanes[r].made
                   && y.outputs.value.generation[r] == if e.rows[r].active == 1 then e.rows[r].generation else 0
  {
    if y.outputs.Some? {
      ControlAt(e, end, 0);
      forall r: nat | r < BATCH
        ensures y.outputs.value.executed[r] == |end.l.lanes[r].made| && RowTokens(y.outputs.value, r) == end.l.lanes[r].made
        ensures y.outputs.value.generation[r] == Echo(e.rows[r])
      {
        RowRead(e, end, y.outputs.value, r);
      }
    }
  }

  /** An accepted call whose epoch succeeds, with its import proved, is answered with its outputs. */
  lemma SuccessAnswered(x: Incoming, y: Answer, d: Device, ctx: Context, end: Ending)
    requires Executes(x) && Code(x.a) == ACCEPTED && ImportMatches(x.a) && ImportUsable(x.check)
    requires end == Epoch(d, Bridge.Fed(x.a), ctx).1 && end.status == OK
    requires x.session == Messages(HistoryOf(end.l.lanes), Control(Bridge.Fed(x.a), end)) && Answers(x, y)
    requires ChecksumProved(x.check, Control(Bridge.Fed(x.a), end)[5])
    ensures y.transport == 0 && y.outputs.Some? && forall r: nat | r < BATCH :: |end.l.lanes[r].made| <= MAX_EPOCH_STEPS
  {
    EpochShape(d, Bridge.Fed(x.a), ctx, Epoch(d, Bridge.Fed(x.a), ctx).0, end);
    CountsShort(x.a, end);
    ControlAt(Bridge.Fed(x.a), end, 0);
  }

  lemma CountsShort(a: Args, end: Ending)
    requires EndShape(Bridge.Fed(a), end.l)
    ensures forall r: nat | r < BATCH :: |end.l.lanes[r].made| <= MAX_EPOCH_STEPS
    ensures CountsInRange(a.maxSteps, Control(Bridge.Fed(a), end))
  {
    forall r: nat | r < BATCH
      ensures |end.l.lanes[r].made| <= MAX_EPOCH_STEPS && 0 <= Executed(Control(Bridge.Fed(a), end), r) <= a.maxSteps
    {
      assert LaneEnd(Bridge.Fed(a), end.l.calls, end.l.lanes[r].made, r);
      ControlAt(Bridge.Fed(a), end, r);
    }
  }

  // ----- the worker

  datatype Execution = Succeeds | Fails(commit: CommitState)

  /** How the steps of one attempt fare. */
  datatype World = World(loads: bool, deviceCapture: bool, snapshotAllowed: bool, hostCapture: bool, execution: Execution)

  datatype WorkerOutcome = Ran(route: Route) | Propagated

  class Worker {
    var backend: bool
    var hostRuns: nat
    var executions: nat

    constructor ()
      ensures !backend && hostRuns == 0 && executions == 0
    {
      backend, hostRuns, executions := false, 0, 0;
    }

    /** The backend is asked to execute: it is there, and any import has been captured one way or the other. */
    predicate Reaches(task: Task, world: World)
      reads this
    {
      (backend || world.loads) && (task.importing ==> world.deviceCapture || (world.snapshotAllowed && world.hostCapture))
    }

    method RunHost() returns (outcome: WorkerOutcome)
      modifies this`hostRuns
      ensures hostRuns == old(hostRuns) + 1 && outcome == Ran(HostFallback)
    {
      hostRuns := hostRuns + 1;
      outcome := Ran(HostFallback);
    }

    method RunBackend(task: Task, execution: Execution) returns (outcome: WorkerOutcome)
      modifies this`hostRuns, this`executions
      ensures executions == old(executions) + 1
      ensures outcome == if execution.Succeeds? then Ran(DeviceRoute)
                         else if execution.commit.EpochPrepared? && task.replaySafe then Ran(HostFallback) else Propagated
      ensures hostRuns == old(hostRuns) + if outcome == Ran(HostFallback) then 1 else 0
    {
      executions := executions + 1;
      if execution.Succeeds? { return Ran(DeviceRoute); }
      if !execution.commit.EpochPrepared? || !task.replaySafe { return Propagated; }
      outcome := RunHost();
    }

    /** `_execute_model_with_fallback` on a plan. Both routes are never taken, the host's only for a replay-safe plan that
        either never got a backend or whose failure proves PREPARED. */
    method ExecuteModel(task: Task, world: World) returns (outcome: WorkerOutcome)
      modifies this
      ensures backend == (old(backend) || world.loads)
      ensures executions == old(executions) + if old(Reaches(task, world)) then 1 else 0
      ensures hostRuns == old(hostRuns) + if outcome == Ran(HostFallback) then 1 else 0
      ensures outcome == Ran(DeviceRoute) <==> old(Reaches(task, world)) && world.execution.Succeeds?
      ensures outcome == Ran(HostFallback) <==>
                && task.replaySafe
                && if old(backend) || world.loads then old(Reaches(task, world)) && world.execution == Fails(EpochPrepared) else true
    {
      if !backend {
        if !world.loads {
          if !task.replaySafe { return Propagated; }
          outcome := RunHost();
          return;
        }
        backend := true;
      }
      if task.importing && !world.deviceCapture {
        if !world.snapshotAllowed || !world.hostCapture { return Propagated; }
      }
      outcome := RunBackend(task, world.execution);
    }
  }

  // ----- one plan after the other

  /** What matters of a plan here: whether every request is still the host's, and whether KV has to be captured. */
  datatype Task = Task(replaySafe: bool, importing: bool)

  datatype Response = Response(transport: int, status: int, commit: CommitState)

  datatype Client =
    | Idle
    | Loading(task: Task)
    | Capturing(task: Task)
    | Checking(task: Task)
    | Awaiting(task: Task)
    | Errored(task: Task, commit: CommitState)
    | Raised

  datatype Server = Waiting | Bridging | Executing | Fed | Replying(response: Response)

  /** `feeds` and `hostRuns` count what has happened to the current plan, `log` to the plans before it. */
  datatype State = State(
    client: Client, server: Server, commit: CommitState, request: bool, response: Option<Response>,
    feeds: nat, hostRuns: nat, log: seq<(nat, nat)>)

  const INITIAL := State(Idle, Waiting, EpochPrepared, false, None, 0, 0, [])

  datatype Event =
    | Begin(task: Task)
    | LoadFails | LoadSucceeds
    | CaptureFails | CaptureSucceeds
    | ExecuteFailsEarly(commit: CommitState) // an invalid plan, a closed socket, any other exception before the send
    | Send
    | SendBreaks(delivered: bool)
    | ServerReads
    | ServerRejects(code: int)
    | ServerStarts | ServerFeeds
    | ServerFails(code: int)
    | ServerCommits(status: int)
    | ServerWrites(lost: bool)
    | ReceiveBreaks
    | Receive(contractHolds: bool)
    | Resolve

  /** The plan is over; the next one starts afresh. */
  function Finish(s: State): State {
    s.(client := Idle, feeds := 0, hostRuns := 0, log := s.log + [(s.feeds, s.hostRuns)])
  }

  /** Run the plan on the host and attach the fallback result. */
  function RunOnHost(s: State): State { Finish(s.(hostRuns := s.hostRuns + 1)) }

  /** What the client makes of a response: a device result, or an error with the commit state it proves. */
  function Judge(r: Response, contractHolds: bool): Option<CommitState> {
    if r.transport != 0 then Some(r.commit)
    else if r.status != 0 then Some(r.commit)
    else if !r.commit.EpochCommitted? then Some(r.commit)
    else if !contractHolds then Some(EpochCommitted)
    else None
  }

  /** One step, when it is possible. */
  function Next(s: State, e: Event): Option<State> {
    match e
    case Begin(task) => if s.client.Idle? then Some(s.(client := Loading(task))) else None
    case LoadFails =>
      if s.client.Loading? then Some(if s.client.task.replaySafe then RunOnHost(s) else s.(client := Raised)) else None
    case LoadSucceeds =>
      if s.client.Loading? then
        Some(s.(client := if s.client.task.importing then Capturing(s.client.task) else Checking(s.client.task)))
      else None
    case CaptureFails => if s.client.Capturing? then Some(s.(client := Raised)) else None
    case CaptureSucceeds => if s.client.Capturing? then Some(s.(client := Checking(s.client.task))) else None
    case ExecuteFailsEarly(commit) =>
      if s.client.Checking? && !commit.EpochCommitted? then Some(s.(client := Errored(s.client.task, commit))) else None
    case Send => if s.client.Checking? then Some(s.(client := Awaiting(s.client.task), request := true)) else None
    case SendBreaks(delivered) =>
      if s.client.Checking? then Some(s.(client := Errored(s.client.task, EpochExecuting), request := delivered)) else None
    case ServerReads =>
      if s.server.Waiting? && s.request then Some(s.(server := Bridging, commit := EpochPrepared, request := false)) else None
    case ServerRejects(code) =>
      if s.server.Bridging? && code != 0 then Some(s.(server := Replying(Response(code, -1, s.commit)))) else None
    case ServerStarts => if s.server.Bridging? then Some(s.(server := Executing, commit := EpochExecuting)) else None
    case ServerFeeds => if s.server.Executing? then Some(s.(server := Fed, feeds := s.feeds + 1)) else None
    case ServerFails(code) =>
      if s.server.Fed? && code != 0 then Some(s.(server := Replying(Response(code, -1, s.commit)))) else None
    case ServerCommits(status) =>
      if s.server.Fed? then Some(s.(server := Replying(Response(0, status, EpochCommitted)), commit := EpochCommitted)) else None
    case ServerWrites(lost) =>
      if s.server.Replying? then
        Some(s.(server := Waiting, response := if lost then s.response else Some(s.server.response)))
      else None
    case ReceiveBreaks => if s.client.Awaiting? then Some(s.(client := Errored(s.client.task, EpochExecuting))) else None
    case Receive(contractHolds) =>
      if s.client.Awaiting? && s.response.Some? then
        var taken := s.(response := None);
        match Judge(s.response.value, contractHolds)
        case None => Some(Finish(taken))
        case Some(commit) => Some(taken.(client := Errored(s.client.task, commit)))
      else None
    case Resolve =>
      if s.client.Errored? then
        Some(if s.client.commit.EpochPrepared? && s.client.task.replaySafe then RunOnHost(s) else s.(client := Raised))
      else None
  }

  // ----- safety

  /** Nothing of the current plan has left the client. */
  ghost predicate Quiet(s: State) { s.server.Waiting? && !s.request && s.response.None? && s.feeds == 0 }

  /** A response says PREPARED only when nothing was fed, and success only when something was. */
  ghost predicate Truthful(s: State, r: Response) {
    && (r.commit.EpochPrepared? <==> s.feeds == 0)
    && (r.transport == 0 <==> r.commit.EpochCommitted?)
    && s.feeds <= 1
  }

  /** At any time at most one message of the current plan is under way, at the place its commit state belongs to. */
  ghost predicate Underway(s: State) {
    && (s.request ==> s.server.Waiting? && s.response.None? && s.feeds == 0)
    && (s.server.Bridging? ==> s.response.None? && s.feeds == 0 && s.commit.EpochPrepared?)
    && (s.server.Executing? ==> s.response.None? && s.feeds == 0 && s.commit.EpochExecuting?)
    && (s.server.Fed? ==> s.response.None? && s.feeds == 1 && s.commit.EpochExecuting?)
    && (s.server.Replying? ==> s.response.None? && s.server.response.commit == s.commit && Truthful(s, s.server.response))
    && (s.response.Some? ==> s.server.Waiting? && Truthful(s, s.response.value))
  }

  ghost predicate RanOnce(entry: (nat, nat)) { entry.0 + entry.1 == 1 }

  ghost predicate Inv(s: State) {
    && Underway(s) && s.feeds <= 1 && s.hostRuns == 0
    && (s.client.Idle? || s.client.Loading? || s.client.Capturing? || s.client.Checking? ==> Quiet(s))
    && (s.client.Errored? && s.client.commit.EpochPrepared? ==> Quiet(s))
    && (forall entry | entry in s.log :: RanOnce(entry))
  }

  lemma FinishKeeps(s: State)
    requires s.server.Waiting? && !s.request && s.response.None? && s.feeds + s.hostRuns == 1
    requires forall entry | entry in s.log :: RanOnce(entry)
    ensures Inv(Finish(s))
  {
  }

  lemma StepKeeps(s: State, e: Event)
    requires Inv(s) && Next(s, e).Some?
    ensures Inv(Next(s, e).value)
  {
    match e
    case LoadFails => if s.client.task.replaySafe { FinishKeeps(s.(hostRuns := 1)); }
    case Resolve => if s.client.commit.EpochPrepared? && s.client.task.replaySafe { FinishKeeps(s.(hostRuns := 1)); }
    case Receive(contractHolds) =>
      if Judge(s.response.value, contractHolds).None? { FinishKeeps(s.(response := None)); }
    case _ =>
  }

  /** The run is possible and ends in this state. */
  function After(events: seq<Event>): Option<State> {
    if events == [] then Some(INITIAL)
    else
      var before := After(events[..|events| - 1]);
      if before.None? then None else Next(before.value, events[|events| - 1])
  }

  lemma {:induction false} RunsKeepInv(events: seq<Event>)
    requires After(events).Some?
    ensures Inv(After(events).value)
  {
    if events != [] {
      RunsKeepInv(events[..|events| - 1]);
      StepKeeps(After(events[..|events| - 1]).value, events[|events| - 1]);
    }
  }

  /** At most one route, whatever fails and whichever responses are lost: no plan is fed twice, or fed and also run
      on the host; and a plan that ended without an exception was executed exactly once. */
  lemma AtMostOneRoute(events: seq<Event>)
    requires After(events).Some?
    ensures var s := After(events).value;
            && s.feeds + s.hostRuns <= 1
            && forall i :: 0 <= i < |s.log| ==> s.log[i].0 + s.log[i].1 == 1
  {
    RunsKeepInv(events);
    var s := After(events).value;
    forall i | 0 <= i < |s.log|
      ensures s.log[i].0 + s.log[i].1 == 1
    {
      assert RanOnce(s.log[i]);
    }
  }

  /** A response ends the plan as a device result exactly when it reports success of the transport and of the device, claims
      COMMITTED, and holds against the contract; the plan has then been fed once and not run on the host. Any other response
      is an error with the commit state it claims. */
  lemma EndedByDevice(events: seq<Event>, contractHolds: bool)
    requires After(events).Some? && Next(After(events).value, Receive(contractHolds)).Some?
    ensures var s, t := After(events).value, Next(After(events).value, Receive(contractHolds)).value;
            && s.response.Some?
            && if s.response.value.transport == 0 && s.response.value.status == 0 && s.response.value.commit.EpochCommitted? && contractHolds then
                 t.client.Idle? && t.log == s.log + [(1, 0)]
               else t.client == Errored(s.client.task, s.response.value.commit) && t.log == s.log
  {
    RunsKeepInv(events);
  }

  predicate RunsHost(s: State, e: Event) { Next(s, e).Some? && Next(s, e).value.log != s.log && !e.Receive? }

  /** The host runs a plan only if every request is still its own and the device has not been fed. */
  lemma HostRunIsSafe(events: seq<Event>, e: Event)
    requires After(events).Some? && RunsHost(After(events).value, e)
    ensures var s := After(events).value;
            && s.feeds == 0 && (s.client.Loading? || s.client.Errored?) && s.client.task.replaySafe
            && (s.client.Errored? ==> s.client.commit.EpochPrepared?)
  {
    RunsKeepInv(events);
  }

  /** The three values are passed in order. */
  function Rank(c: CommitState): nat {
    match c
    case EpochPrepared => 0
    case EpochExecuting => 1
    case EpochCommitted => 2
  }

  /** What the server's loop answers is what the protocol's server may say. */
  lemma AnswersAreTruthful(x: Incoming, y: Answer, s: State, status: int)
    requires x.session.Messages? ==> |x.session.control| == CONTROL_OUTPUTS
    requires Executes(x) && Answers(x, y) && s.feeds == y.feeds
    ensures Truthful(s, Response(y.transport, status, y.commit))
    ensures Judge(Response(y.transport, status, y.commit), true) == Some(EpochPrepared) <==> y.feeds == 0
  {
  }

  /** Within a request the commit state only moves forward, one value at a time. */
  lemma CommitOnlyAdvances(events: seq<Event>, e: Event)
    requires After(events).Some? && Next(After(events).value, e).Some? && !e.ServerReads?
    ensures var s, t := After(events).value, Next(After(events).value, e).value;
            Rank(s.commit) <= Rank(t.commit) <= Rank(s.commit) + 1
  {
    RunsKeepInv(events);
  }

  /** An ambiguous response never leads to the host: after one the run can only end. */
  lemma AmbiguityRaises(events: seq<Event>)
    requires After(events).Some? && After(events).value.client.Errored? && !After(events).value.client.commit.EpochPrepared?
    ensures var s := After(events).value;
            Next(s, Resolve) == Some(s.(client := Raised))
    ensures forall e :: Next(After(events).value, e).Some? ==> !RunsHost(After(events).value, e)
  {
  }

  /** After an exception nothing more is sent or run, whatever the server still does. */
  lemma RaisedStays(s: State, e: Event)
    requires s.client.Raised? && Next(s, e).Some?
    ensures var t := Next(s, e).value; t.client.Raised? && t.log == s.log && t.hostRuns == s.hostRuns && (t.request ==> s.request)
  {
  }
}
