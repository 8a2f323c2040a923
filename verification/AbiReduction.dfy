/** The earlier ten-input, ten-output controller, and the proof that the eight-input, two-output one replaced
    it without changing what it does. */
module AbiReduction {
  import opened Layout
  import opened Flow
  import opened EpochSpec
  import opened EpochRows
  import opened EpochRun
  import opened Controller

  /** The logits of every executed row and step: entry `step * BATCH + row`, zero where nothing was executed. */
  type LogitsHistory = h: seq<seq<Logit>> | |h| == HISTORY witness seq(HISTORY, _ => [])

  function ZeroLogits(): LogitsHistory { seq(HISTORY, _ => ZeroRowLogits()) }

  function ZeroRowLogits(): seq<Logit> { seq(VOCAB_SIZE, _ => Finite(0.0)) }

  /** The ten outputs. */
  datatype OldReply =
    | OldFailed
    | OldEmitted(logits: LogitsHistory, history: History, key: Cache, value: Cache, token: Row4, position: Row4, length: Row4,
                 slot: Row4, active: Row4, control: seq<int>)

  datatype OldInput = OldInput(e: EpochInput, key: Cache, value: Cache)

  function OldDecode(inputs: seq<Tensor>, ctx: Context): (r: Option<OldInput>)
    ensures r.Some? ==> r.value.e.Typed()
  {
    if |inputs| != 10 || !ctx.outputsAllocated
       || !(IsInt64(inputs[0], BATCH) && IsInt64(inputs[1], BATCH) && IsInt32(inputs[2], BATCH) && IsCache(inputs[3])
            && IsInt32(inputs[4], BATCH) && IsInt32(inputs[5], BATCH) && IsInt32(inputs[6], BATCH * BLOCKS_PER_REQUEST)
            && IsCache(inputs[7]) && IsUInt8(inputs[8], 72) && IsInt32(inputs[9], CONTROL_INPUTS))
    then None
    else
      var control := inputs[9].i32;
      var e := InputOfTensors(control, [], inputs[0].i64, inputs[1].i64, inputs[2].i32, Some(inputs[4].i32),
                              inputs[5].i32, inputs[6].i32, inputs[8].u8);
      Some(OldInput(e.(graph := control[6], importing := false, mask := 0), inputs[3].blocks, inputs[7].blocks))
  }

  // ----- what the old controller does

  type Mades = s: seq<seq<int>> | |s| == BATCH witness [[], [], [], []]

  function MadeOf(lanes: Lanes): Mades { [lanes[0].made, lanes[1].made, lanes[2].made, lanes[3].made] }

  /** Validation and continuity; nothing can be imported. */
  function OldAdmit(d: Device, e: EpochInput): int {
    if InputStatus(e) != OK then InputStatus(e) else if Continuity(d, e) then OK else RESIDENT_CONTINUITY
  }

  datatype OldRows =
    | RowsFail(status: int, made: Mades, logits: LogitsHistory)
    | RowsDone(lanes: Lanes, logits: LogitsHistory)

  /** A row that has sampled `token` at its new position and got its next slot. */
  function OldSettled(e: EpochInput, lane: Lane, r: nat, token: int, position: int, slot: int): Lane
    requires r < BATCH
  {
    var moved := Lane(token, position, position + 1, slot, lane.active, lane.reason, lane.made + [token]);
    if token == e.rows[r].eos then moved.(active := 0, reason := FINISH_EOS) else moved
  }

  datatype OldLane = OldLane(status: int, lane: Lane, sampled: bool)

  /** One row of one decoder call. */
  function OldStepLane(e: EpochInput, logits: seq<Logit>, next: int, lane: Lane, r: nat): OldLane
    requires r < BATCH && logits != []
  {
    if lane.active == 0 then OldLane(if next != lane.position then POSITION_PROGRESS else OK, lane, false)
    else if Greedy(logits).None? then OldLane(NON_FINITE_LOGITS, lane, false)
    else if next != lane.position + 1 then OldLane(POSITION_PROGRESS, lane, false)
    else
      var token := Greedy(logits).value;
      if next == LOGICAL_CAPACITY then OldLane(OK, OldSettled(e, lane, r, token, next, -1), true)
      else
        var slot := ComputeSlot(e.table, r, next);
        if slot < 0 then OldLane(CAPACITY_EXCEEDED, lane.(made := lane.made + [token]), true)
        else OldLane(OK, OldSettled(e, lane, r, token, next, slot), true)
  }

  /** Rows `r` and on: each samples, keeps its logits, and moves on. */
  function OldStepRows(e: EpochInput, all: seq<Logit>, next: Row4, lanes: Lanes, h: LogitsHistory, step: nat, r: nat): OldRows
    requires r <= BATCH && step < MAX_EPOCH_STEPS && |all| == BATCH * VOCAB_SIZE
    decreases BATCH - r
  {
    if r == BATCH then RowsDone(lanes, h)
    else
      var s := OldStepLane(e, RowLogits(all, r), next[r], lanes[r], r);
      var h1 := Logged(h, all, step, r, s.sampled);
      if s.status != OK then RowsFail(s.status, MadeOf(lanes[r := s.lane]), h1)
      else OldStepRows(e, all, next, lanes[r := s.lane], h1, step, r + 1)
  }

  function Logged(h: LogitsHistory, all: seq<Logit>, step: nat, r: nat, sampled: bool): LogitsHistory
    requires r < BATCH && step < MAX_EPOCH_STEPS && |all| == BATCH * VOCAB_SIZE
  {
    if sampled then h[step * BATCH + r := RowLogits(all, r)] else h
  }

  ghost predicate ComesTo(e: EpochInput, all: seq<Logit>, next: Row4, lanes: Lanes, h: LogitsHistory, step: nat, r: nat, end: OldRows)
    requires r <= BATCH && step < MAX_EPOCH_STEPS && |all| == BATCH * VOCAB_SIZE
  {
    OldStepRows(e, all, next, lanes, h, step, r) == end
  }

  datatype OldOutcome =
    | OldHalt(status: int, calls: nat, made: Mades, logits: LogitsHistory)
    | OldGo(l: Loop, logits: LogitsHistory)

  function OldStep(ctx: Context, e: EpochInput, l: Loop, h: LogitsHistory): (o: OldOutcome)
    requires l.calls < MAX_EPOCH_STEPS
    ensures o.OldGo? ==> o.l.calls == l.calls + 1
  {
    var ret := ctx.runFlowModel(DecoderInput(e, l));
    if !ret.success then OldHalt(MODEL_ERROR, l.calls + 1, MadeOf(l.lanes), h)
    else if !GoodOutputs(ret.outputs) then OldHalt(INVALID_MODEL_OUTPUT, l.calls + 1, MadeOf(l.lanes), h)
    else if !ctx.stepAllocated(l.calls) then OldHalt(ALLOCATION_FAILURE, l.calls + 1, MadeOf(l.lanes), h)
    else
      match OldStepRows(e, ret.outputs[0].f32, ret.outputs[3].i64, l.lanes, h, l.calls, 0)
      case RowsFail(status, made, h1) => OldHalt(status, l.calls + 1, made, h1)
      case RowsDone(lanes, h1) => OldGo(Loop(l.calls + 1, lanes, ret.outputs[1].blocks, ret.outputs[2].blocks), h1)
  }

  function OldLoop(ctx: Context, e: EpochInput, l: Loop, h: LogitsHistory): OldOutcome
    requires e.maxSteps <= MAX_EPOCH_STEPS
    decreases e.maxSteps - l.calls
  {
    if l.calls >= e.maxSteps || !Busy(l.lanes) then OldGo(l, h)
    else
      match OldStep(ctx, e, l, h)
      case OldHalt(s, c, m, h1) => OldHalt(s, c, m, h1)
      case OldGo(n, h1) => OldLoop(ctx, e, n, h1)
  }

  function OldHistory(made: Mades): History {
    seq(HISTORY, i requires 0 <= i < HISTORY => if i / BATCH < |made[i % BATCH]| then made[i % BATCH][i / BATCH] else -1)
  }

  /** The control output: without imports, word 5 only says whether the call succeeded. */
  function OldControl(e: EpochInput, status: int, calls: nat, made: Mades, reasons: Row4, active: Row4): seq<int> {
    var x := e.rows;
    [e.maxSteps, e.sampling, e.graph, status, calls, if status == OK then 0 else 1]
    + [x[0].eos, x[1].eos, x[2].eos, x[3].eos]
    + [x[0].active, x[1].active, x[2].active, x[3].active]
    + [|made[0]|, |made[1]|, |made[2]|, |made[3]|]
    + reasons
    + [CountActive([x[0].active, x[1].active, x[2].active, x[3].active]), CountActive(active)]
    + [Echo(x[0]), Echo(x[1]), Echo(x[2]), Echo(x[3])]
  }

  const ALL_FALLBACK: Row4 := [FINISH_FALLBACK, FINISH_FALLBACK, FINISH_FALLBACK, FINISH_FALLBACK]

  /** A fallback returns the inputs and the resident caches. */
  function OldFallback(d: Device, e: EpochInput, status: int, calls: nat, made: Mades, h: LogitsHistory): OldReply {
    var x := e.rows;
    var active: Row4 := [x[0].active, x[1].active, x[2].active, x[3].active];
    OldEmitted(h, OldHistory(made), d.key, d.value, [x[0].token, x[1].token, x[2].token, x[3].token],
               [x[0].position, x[1].position, x[2].position, x[3].position], [x[0].length, x[1].length, x[2].length, x[3].length],
               [x[0].slot, x[1].slot, x[2].slot, x[3].slot], active, OldControl(e, status, calls, made, ALL_FALLBACK, active))
  }

  function OldReason(x: RowInput, lane: Lane): int {
    if x.active == 1 && lane.reason == FINISH_NONE then FINISH_MAX_STEPS else lane.reason
  }

  function OldFinal(e: EpochInput, l: Loop, h: LogitsHistory): OldReply {
    var t, x := l.lanes, e.rows;
    var active: Row4 := [t[0].active, t[1].active, t[2].active, t[3].active];
    OldEmitted(h, OldHistory(MadeOf(t)), l.key, l.value, [t[0].token, t[1].token, t[2].token, t[3].token],
               [t[0].position, t[1].position, t[2].position, t[3].position], [t[0].length, t[1].length, t[2].length, t[3].length],
               [t[0].slot, t[1].slot, t[2].slot, t[3].slot], active,
               OldControl(e, OK, l.calls, MadeOf(t),
                          [OldReason(x[0], t[0]), OldReason(x[1], t[1]), OldReason(x[2], t[2]), OldReason(x[3], t[3])], active))
  }

  /** The decode loop on cleared caches, and the commit. */
  function OldDecoded(d: Device, e: EpochInput, ctx: Context): (Device, OldReply)
    requires e.maxSteps <= MAX_EPOCH_STEPS
  {
    match OldLoop(ctx, e, Start(e, d), ZeroLogits())
    case OldHalt(s, calls, made, h) => (d, OldFallback(d, e, s, calls, made, h))
    case OldGo(l, h) => (Commit(d, e, l), OldFinal(e, l, h))
  }

  /** Everything after the tensor checks. */
  function OldEpoch(d: Device, e: EpochInput, ctx: Context): (Device, OldReply) {
    var status := OldAdmit(d, e);
    if status != OK then (d, OldFallback(d, e, status, 0, [[], [], [], []], ZeroLogits()))
    else OldDecoded(ClearNew(d, e), e, ctx)
  }

  /** The first call to get this far copies the resident caches from its inputs. */
  function Boot(d: Device, i: OldInput): Device {
    if d.ready then d else d.(ready := true, key := i.key, value := i.value)
  }

  function OldProc(d: Device, inputs: seq<Tensor>, ctx: Context): (Device, OldReply) {
    var decoded := OldDecode(inputs, ctx);
    if decoded.None? || !(d.ready || ctx.cachesAllocated) then (d, OldFailed)
    else OldEpoch(Boot(d, decoded.value), decoded.value.e, ctx)
  }

  // ----- the same in place

  /** The working state of a call together with its logits history. */
  class LoggedRun {
    const run: Run
    var logits: LogitsHistory

    ghost predicate Valid()
      reads this, run
    {
      run.Valid()
    }

    constructor (e: EpochInput)
      ensures Valid() && run.Aligned(0, 0) && run.calls == 0 && logits == ZeroLogits() && fresh(run)
      ensures run.AllLanes() == [StartLane(e.rows[0]), StartLane(e.rows[1]), StartLane(e.rows[2]), StartLane(e.rows[3])]
    {
      run := new Run(e);
      logits := ZeroLogits();
    }

    /** The rows of one decoder call. */
    method StepRows(e: EpochInput, all: seq<Logit>, next: Row4, ghost step: nat) returns (status: int)
      requires Valid() && |all| == BATCH * VOCAB_SIZE && run.calls == step + 1 <= MAX_EPOCH_STEPS && run.Aligned(0, step)
      modifies this, run
      ensures Valid() && run.calls == old(run.calls) && (status == OK ==> run.Aligned(0, run.calls))
      ensures OldStepRows(e, all, next, old(run.AllLanes()), old(logits), step, 0) ==
              if status == OK then RowsDone(run.AllLanes(), logits) else RowsFail(status, MadeOf(run.AllLanes()), logits)
    {
      ghost var target := OldStepRows(e, all, next, run.AllLanes(), logits, step, 0);
      var request := 0;
      while request < BATCH
        invariant 0 <= request <= BATCH && Valid() && run.calls == step + 1
        invariant forall r: nat | r < request && run.active[r] != 0 :: run.executed[r] == run.calls
        invariant run.Aligned(request, step)
        invariant ComesTo(e, all, next, run.AllLanes(), logits, step, request, target)
      {
        ghost var lanes, h := run.AllLanes(), logits;
        status := StepRow(e, all, next, request, step);
        RowComesTo(e, all, next, lanes, h, step, request, target, status, run.AllLanes()[request], logits);
        if status != OK { return; }
        request := request + 1;
      }
      status := OK;
    }

    /** One row of one decoder call. */
    method StepRow(e: EpochInput, all: seq<Logit>, next: Row4, r: nat, ghost step: nat) returns (status: int)
      requires Valid() && r < BATCH && |all| == BATCH * VOCAB_SIZE && run.calls == step + 1 <= MAX_EPOCH_STEPS
      requires run.active[r] != 0 ==> run.executed[r] == step
      modifies this, run
      ensures Valid() && run.calls == old(run.calls)
      ensures forall i: nat | i < BATCH && i != r :: run.executed[i] == old(run.executed[i]) && run.active[i] == old(run.active[i])
      ensures status == OK && run.active[r] != 0 ==> run.executed[r] == run.calls
      ensures StepLane(e, RowLogits(all, r), next[r], old(run.AllLanes())[r], r) == (status, run.AllLanes()[r])
      ensures run.AllLanes() == old(run.AllLanes())[r := run.AllLanes()[r]]
      ensures logits == Logged(old(logits), all, step, r, |run.AllLanes()[r].made| != |old(run.AllLanes())[r].made|)
    {
      var before := run.executed[r];
      ghost var lanes := run.AllLanes();
      assert lanes[r] == run.LaneAt(r) && |lanes[r].made| == before;
      status := run.StepRequest(e, all, next, r);
      ghost var after := run.AllLanes();
      assert after[r] == run.LaneAt(r) && |after[r].made| == run.executed[r];
      if run.executed[r] != before { logits := logits[(run.calls - 1) * BATCH + r := RowLogits(all, r)]; }
      assert run.AllLanes() == after;
    }

    /** One decoder call. */
    method StepOnce(e: EpochInput, ctx: Context, key0: Cache, value0: Cache) returns (status: int, key: Cache, value: Cache)
      requires Valid() && run.Aligned(0, run.calls) && run.calls < MAX_EPOCH_STEPS
      modifies this, run
      ensures Valid() && run.calls == old(run.calls) + 1 && (status == OK ==> run.Aligned(0, run.calls))
      ensures OldStep(ctx, e, old(run.AsLoop(key0, value0)), old(logits)) ==
              if status == OK then OldGo(run.AsLoop(key, value), logits)
              else OldHalt(status, run.calls, MadeOf(run.AllLanes()), logits)
    {
      run.Arguments(e, key0, value0);
      key, value := key0, value0;
      var ret := ctx.runFlowModel(ModelInput(run.token, run.position, run.length, key0, run.slot, run.active, e.table, value0, e.tiling));
      ghost var lanes := run.AllLanes();
      run.calls := run.calls + 1;
      assert run.AllLanes() == lanes;
      if !ret.success { return MODEL_ERROR, key0, value0; }
      if !GoodOutputs(ret.outputs) { return INVALID_MODEL_OUTPUT, key0, value0; }
      if !ctx.stepAllocated(run.calls - 1) { return ALLOCATION_FAILURE, key0, value0; }
      status := StepRows(e, ret.outputs[0].f32, ret.outputs[3].i64, run.calls - 1);
      if status == OK { key, value := ret.outputs[1].blocks, ret.outputs[2].blocks; }
    }

    /** The decode loop. */
    method DecodeAll(e: EpochInput, ctx: Context, key0: Cache, value0: Cache) returns (status: int, key: Cache, value: Cache)
      requires Valid() && run.Aligned(0, 0) && run.calls == 0 && e.maxSteps <= MAX_EPOCH_STEPS
      modifies this, run
      ensures Valid()
      ensures OldLoop(ctx, e, old(run.AsLoop(key0, value0)), old(logits)) ==
              if status == OK then OldGo(run.AsLoop(key, value), logits)
              else OldHalt(status, run.calls, MadeOf(run.AllLanes()), logits)
    {
      key, value := key0, value0;
      ghost var target := OldLoop(ctx, e, run.AsLoop(key0, value0), logits);
      while run.calls < e.maxSteps
        invariant Valid() && run.Aligned(0, run.calls)
        invariant OldLoop(ctx, e, run.AsLoop(key, value), logits) == target
        decreases e.maxSteps - run.calls
      {
        assert Busy(run.AllLanes()) <==> CountActive(run.active) != 0 by {
          assert forall r: nat | r < BATCH :: run.AllLanes()[r].active == run.active[r];
        }
        if CountActive(run.active) == 0 { break; }
        status, key, value := StepOnce(e, ctx, key, value);
        if status != OK { return; }
      }
      status := OK;
    }
  }

  /** One row steps alike in both controllers; where the old one stops at the capacity, it has made the same tokens. */
  lemma LaneAgrees(e: EpochInput, logits: seq<Logit>, next: int, lane: Lane, r: nat)
    requires r < BATCH && logits != []
    ensures var (status, after) := StepLane(e, logits, next, lane, r);
            var s := OldStepLane(e, logits, next, lane, r);
            && s.status == status && s.lane.made == after.made && (status == OK ==> s.lane == after)
            && (s.sampled <==> |after.made| != |lane.made|)
  {
  }

  /** Putting a lane back, with the same tokens as another. */
  lemma SameMade(lanes: Lanes, r: nat, a: Lane, b: Lane)
    requires r < BATCH && a.made == b.made
    ensures MadeOf(lanes[r := a]) == MadeOf(lanes[r := b])
  {
  }

  lemma RowComesTo(e: EpochInput, all: seq<Logit>, next: Row4, lanes: Lanes, h: LogitsHistory, step: nat, r: nat, end: OldRows,
                   status: int, lane: Lane, h1: LogitsHistory)
    requires r < BATCH && step < MAX_EPOCH_STEPS && |all| == BATCH * VOCAB_SIZE && ComesTo(e, all, next, lanes, h, step, r, end)
    requires StepLane(e, RowLogits(all, r), next[r], lanes[r], r) == (status, lane)
    requires h1 == Logged(h, all, step, r, |lane.made| != |lanes[r].made|)
    ensures if status == OK then ComesTo(e, all, next, lanes[r := lane], h1, step, r + 1, end)
            else end == RowsFail(status, MadeOf(lanes[r := lane]), h1)
  {
    LaneAgrees(e, RowLogits(all, r), next[r], lanes[r], r);
    SameMade(lanes, r, OldStepLane(e, RowLogits(all, r), next[r], lanes[r], r).lane, lane);
  }

  /** The old controller; it keeps its state in the same fields. */
  class OldResidentEpoch {
    const core: ResidentEpoch

    constructor ()
      ensures core.Valid() && core.State() == Initial()
    {
      core := new ResidentEpoch();
    }

    method Admit(e: EpochInput) returns (status: int, isNew: seq<bool>)
      requires core.Valid()
      ensures status == OldAdmit(core.State(), e)
      ensures status == OK ==> |isNew| == BATCH && forall r: nat | r < BATCH :: isNew[r] == NewLease(core.State().rows[r], e.rows[r])
    {
      isNew := [];
      status := CheckInput(e);
      if status != OK { return; }
      var ok;
      ok, isNew := core.CheckContinuity(e);
      if !ok { status := RESIDENT_CONTINUITY; }
    }

    method RunAdmitted(e: EpochInput, ctx: Context) returns (reply: OldReply)
      requires core.Valid() && core.key != null && e.maxSteps <= MAX_EPOCH_STEPS
      modifies core`key, core`value, core.generation, core.token, core.position, core.length, core.valid
      ensures core.Valid() && (core.State(), reply) == OldDecoded(old(core.State()), e, ctx)
    {
      var logged := new LoggedRun(e);
      assert logged.run.AsLoop(core.key[..], core.value[..]) == Start(e, core.State());
      var status, newKey, newValue := logged.DecodeAll(e, ctx, core.key[..], core.value[..]);
      if status != OK {
        reply := OldFallback(core.State(), e, status, logged.run.calls, MadeOf(logged.run.AllLanes()), logged.logits);
        return;
      }
      core.CommitAll(e, logged.run, newKey, newValue);
      reply := OldFinal(e, logged.run.AsLoop(newKey, newValue), logged.logits);
    }

    method RunEpoch(e: EpochInput, ctx: Context) returns (reply: OldReply)
      requires core.Valid() && core.key != null
      modifies core`key, core`value, core.key, core.value, core.generation, core.token, core.position, core.length, core.valid
      ensures core.Valid() && (core.State(), reply) == OldEpoch(old(core.State()), e, ctx)
    {
      var status, isNew := Admit(e);
      if status != OK { return OldFallback(core.State(), e, status, 0, [[], [], [], []], ZeroLogits()); }
      core.ClearFresh(e, isNew);
      reply := RunAdmitted(e, ctx);
    }

    /** Allocate the resident caches with the contents of the inputs. */
    method BootCaches(i: OldInput)
      requires core.Valid()
      modifies core`key, core`value
      ensures core.Valid() && core.key != null && core.State() == Boot(old(core.State()), i)
      ensures old(core.key) != null ==> core.key == old(core.key) && core.value == old(core.value)
      ensures old(core.key) == null ==> fresh(core.key) && fresh(core.value)
    {
      if core.key == null {
        core.key := new Block[CACHE_BLOCKS](k requires 0 <= k < CACHE_BLOCKS => i.key[k]);
        core.value := new Block[CACHE_BLOCKS](k requires 0 <= k < CACHE_BLOCKS => i.value[k]);
        assert core.key[..] == i.key && core.value[..] == i.value;
      }
    }

    method Proc(inputs: seq<Tensor>, ctx: Context) returns (reply: OldReply)
      requires core.Valid()
      modifies core`key, core`value, core.key, core.value, core.generation, core.token, core.position, core.length, core.valid
      ensures core.Valid() && (core.State(), reply) == OldProc(old(core.State()), inputs, ctx)
    {
      var decoded := OldDecode(inputs, ctx);
      if decoded.None? { return OldFailed; }
      if core.key == null && !ctx.cachesAllocated { return OldFailed; }
      BootCaches(decoded.value);
      reply := RunEpoch(decoded.value.e, ctx);
    }
  }

  // ----- the reduction

  datatype OldCall = OldCall(inputs: seq<Tensor>, ctx: Context)

  /** The new message list: the old one without the two caches. */
  function Reduce(inputs: seq<Tensor>): seq<Tensor>
    requires |inputs| == 10
  {
    [inputs[0], inputs[1], inputs[2], inputs[4], inputs[5], inputs[6], inputs[8], inputs[9]]
  }

  /** A call both controllers understand: caches of the declared type, and no import flag in the graph variant. */
  ghost predicate Comparable(c: OldCall) {
    && |c.inputs| == 10 && IsCache(c.inputs[3]) && IsCache(c.inputs[7])
    && (IsInt32(c.inputs[9], CONTROL_INPUTS) ==> !HasImportFlag(c.inputs[9].i32[6]))
  }

  ghost predicate ZeroCaches(c: OldCall)
    requires Comparable(c)
  {
    c.inputs[3].blocks == ZeroCache() && c.inputs[7].blocks == ZeroCache()
  }

  /** What the new controller also returns. */
  function Visible(r: OldReply): Reply {
    if r.OldFailed? then Failed else Emitted(r.history, r.control)
  }

  /** Both runs on the same calls, from the same state. */
  function OldRun(d: Device, calls: seq<OldCall>): (Device, seq<OldReply>)
    decreases |calls|
  {
    if calls == [] then (d, [])
    else
      var (d1, r) := OldProc(d, calls[0].inputs, calls[0].ctx);
      var (d2, rest) := OldRun(d1, calls[1..]);
      (d2, [r] + rest)
  }

  function NewRun(d: Device, calls: seq<OldCall>): (Device, seq<Reply>)
    requires forall c | c in calls :: |c.inputs| == 10
    decreases |calls|
  {
    if calls == [] then (d, [])
    else
      var (d1, r) := Proc(d, Reduce(calls[0].inputs), calls[0].ctx);
      var (d2, rest) := NewRun(d1, calls[1..]);
      (d2, [r] + rest)
  }

  function VisibleAll(rs: seq<OldReply>): seq<Reply> { seq(|rs|, i requires 0 <= i < |rs| => Visible(rs[i])) }

  /** The caches are zero until they are allocated. */
  ghost predicate Sane(d: Device) { !d.ready ==> d.key == ZeroCache() && d.value == ZeroCache() }

  lemma DecodeAgrees(c: OldCall)
    requires Comparable(c)
    ensures var new8, old10 := Decode(Reduce(c.inputs), c.ctx), OldDecode(c.inputs, c.ctx);
            && new8.Some? == old10.Some?
            && (new8.Some? ==> new8.value == old10.value.e && !new8.value.importing)
  {
  }

  // ----- the phases agree

  lemma {:induction false} RowsAgree(e: EpochInput, all: seq<Logit>, next: Row4, lanes: Lanes, h: LogitsHistory, step: nat, r: nat)
    requires r <= BATCH && step < MAX_EPOCH_STEPS && |all| == BATCH * VOCAB_SIZE
    ensures var (status, after) := StepLanes(e, all, next, lanes, r);
            match OldStepRows(e, all, next, lanes, h, step, r)
            case RowsFail(s, made, _) => s == status != OK && made == MadeOf(after)
            case RowsDone(l, _) => status == OK && l == after
    decreases BATCH - r
  {
    if r < BATCH {
      LaneAgrees(e, RowLogits(all, r), next[r], lanes[r], r);
      var (status, lane) := StepLane(e, RowLogits(all, r), next[r], lanes[r], r);
      var s := OldStepLane(e, RowLogits(all, r), next[r], lanes[r], r);
      SameMade(lanes, r, s.lane, lane);
      if status == OK { RowsAgree(e, all, next, lanes[r := lane], Logged(h, all, step, r, s.sampled), step, r + 1); }
    }
  }

  /** What both loops come to, but for the logits. */
  ghost predicate SameOutcome(o: OldOutcome, n: Outcome) {
    match o
    case OldHalt(s, c, made, _) => n.Halt? && n.status == s && n.calls == c && MadeOf(n.lanes) == made
    case OldGo(l, _) => n == Go(l)
  }

  lemma StepsAgree(ctx: Context, e: EpochInput, l: Loop, h: LogitsHistory)
    requires l.calls < MAX_EPOCH_STEPS
    ensures SameOutcome(OldStep(ctx, e, l, h), Step(ctx, e, l))
  {
    var ret := ctx.runFlowModel(DecoderInput(e, l));
    if ret.success && GoodOutputs(ret.outputs) {
      RowsAgree(e, ret.outputs[0].f32, ret.outputs[3].i64, l.lanes, h, l.calls, 0);
    }
  }

  lemma {:induction false} LoopsAgree(ctx: Context, e: EpochInput, l: Loop, h: LogitsHistory)
    requires e.maxSteps <= MAX_EPOCH_STEPS
    ensures SameOutcome(OldLoop(ctx, e, l, h), RunLoop(ctx, e, l))
    decreases e.maxSteps - l.calls
  {
    if l.calls < e.maxSteps && Busy(l.lanes) {
      StepsAgree(ctx, e, l, h);
      var o := OldStep(ctx, e, l, h);
      if o.OldGo? { LoopsAgree(ctx, e, o.l, o.logits); }
    }
  }

  /** Without an import, admission and the control output are the old ones. */
  lemma AdmissionAgrees(d: Device, e: EpochInput)
    requires !e.importing
    ensures Admit(d, e) == (d, OldAdmit(d, e), 0)
  {
  }

  lemma FallbackAgrees(d: Device, e: EpochInput, status: int, calls: nat, lanes: Lanes, h: LogitsHistory)
    requires !e.importing
    ensures var end := Fallback(d, e, status, 0, calls, lanes);
            Visible(OldFallback(d, e, status, calls, MadeOf(lanes), h)) == Emitted(HistoryOf(end.l.lanes), Control(e, end))
  {
    var end, x := Fallback(d, e, status, 0, calls, lanes), e.rows;
    HistoriesAgree(end.l.lanes, MadeOf(lanes));
    ControlAgrees(e, end, MadeOf(lanes), ALL_FALLBACK, [x[0].active, x[1].active, x[2].active, x[3].active]);
  }

  lemma HistoriesAgree(lanes: Lanes, made: Mades)
    requires forall r: nat | r < BATCH :: lanes[r].made == made[r]
    ensures HistoryOf(lanes) == OldHistory(made)
  {
    forall i: nat | i < HISTORY
      ensures HistoryOf(lanes)[i] == OldHistory(made)[i]
    {
      assert lanes[i % BATCH].made == made[i % BATCH];
    }
  }

  lemma FinishedAt(e: EpochInput, l: Loop)
    ensures var t, x := Finished(e, l).lanes, e.rows;
            && [t[0].reason, t[1].reason, t[2].reason, t[3].reason] ==
               [OldReason(x[0], l.lanes[0]), OldReason(x[1], l.lanes[1]), OldReason(x[2], l.lanes[2]), OldReason(x[3], l.lanes[3])]
            && [t[0].active, t[1].active, t[2].active, t[3].active] ==
               [l.lanes[0].active, l.lanes[1].active, l.lanes[2].active, l.lanes[3].active]
            && MadeOf(t) == MadeOf(l.lanes)
  {
  }

  /** The control output, word by word. */
  lemma ControlAgrees(e: EpochInput, end: Ending, made: Mades, reasons: Row4, active: Row4)
    requires var t := end.l.lanes;
             && !e.importing && made == MadeOf(t) && reasons == [t[0].reason, t[1].reason, t[2].reason, t[3].reason]
             && active == [t[0].active, t[1].active, t[2].active, t[3].active]
    ensures OldControl(e, end.status, end.l.calls, made, reasons, active) == Control(e, end)
  {
  }

  lemma FinalAgrees(e: EpochInput, l: Loop, h: LogitsHistory)
    requires !e.importing
    ensures var end := Ending(OK, 0, Finished(e, l));
            Visible(OldFinal(e, l, h)) == Emitted(HistoryOf(end.l.lanes), Control(e, end))
  {
    var end := Ending(OK, 0, Finished(e, l));
    var t, x := l.lanes, e.rows;
    FinishedAt(e, l);
    HistoriesAgree(end.l.lanes, MadeOf(t));
    ControlAgrees(e, end, MadeOf(t), [OldReason(x[0], t[0]), OldReason(x[1], t[1]), OldReason(x[2], t[2]), OldReason(x[3], t[3])],
                  [t[0].active, t[1].active, t[2].active, t[3].active]);
  }

  /** One epoch without an import leaves the same state and shows the same outputs. */
  lemma EpochsAgree(d: Device, e: EpochInput, ctx: Context)
    requires e.Typed() && !e.importing
    ensures var (d1, end) := Epoch(d, e, ctx);
            OldEpoch(d, e, ctx).0 == d1 && Visible(OldEpoch(d, e, ctx).1) == Emitted(HistoryOf(end.l.lanes), Control(e, end))
  {
    AdmissionAgrees(d, e);
    if OldAdmit(d, e) != OK {
      FallbackAgrees(d, e, OldAdmit(d, e), 0, [NO_LANE, NO_LANE, NO_LANE, NO_LANE], ZeroLogits());
    } else {
      var d2 := ClearNew(d, e);
      LoopsAgree(ctx, e, Start(e, d2), ZeroLogits());
      match OldLoop(ctx, e, Start(e, d2), ZeroLogits())
      case OldHalt(s, calls, made, h) => FallbackAgrees(d2, e, s, calls, RunLoop(ctx, e, Start(e, d2)).lanes, h);
      case OldGo(l, h) => FinalAgrees(e, l, h);
    }
  }

  lemma CallAgrees(d: Device, c: OldCall)
    requires Comparable(c) && Sane(d) && (d.ready || ZeroCaches(c))
    ensures var (d1, r) := OldProc(d, c.inputs, c.ctx);
            && Proc(d, Reduce(c.inputs), c.ctx) == (d1, Visible(r)) && Sane(d1)
            && (d.ready ==> d1.ready) && (r.OldEmitted? ==> d1.ready)
  {
    DecodeAgrees(c);
    var decoded := OldDecode(c.inputs, c.ctx);
    if decoded.Some? && (d.ready || c.ctx.cachesAllocated) {
      var e := decoded.value.e;
      assert Boot(d, decoded.value) == d.(ready := true);
      EpochsAgree(d.(ready := true), e, c.ctx);
      EpochReady(d.(ready := true), e, c.ctx);
    }
  }

  /** The condition on a run's caches: a call made before the resident caches exist brings zero ones. */
  ghost predicate StartsZero(d: Device, calls: seq<OldCall>)
    requires forall c | c in calls :: Comparable(c)
    decreases |calls|
  {
    calls != [] && !d.ready ==>
      ZeroCaches(calls[0]) && StartsZero(OldProc(d, calls[0].inputs, calls[0].ctx).0, calls[1..])
  }

  /** For every sequence of calls without an import flag whose first caches are zero, the two controllers return
      the same token histories and control outputs and keep the same resident state. */
  lemma {:induction false} RunsAgree(d: Device, calls: seq<OldCall>)
    requires forall c | c in calls :: Comparable(c)
    requires Sane(d) && StartsZero(d, calls)
    ensures NewRun(d, calls) == (OldRun(d, calls).0, VisibleAll(OldRun(d, calls).1))
    decreases |calls|
  {
    if calls != [] {
      assert calls[0] in calls;
      CallAgrees(d, calls[0]);
      var (d1, r) := OldProc(d, calls[0].inputs, calls[0].ctx);
      RunsAgree(d1, calls[1..]);
      VisibleCons(r, OldRun(d1, calls[1..]).1);
    } else {
      assert VisibleAll([]) == [];
    }
  }

  lemma VisibleCons(r: OldReply, rest: seq<OldReply>)
    ensures VisibleAll([r] + rest) == [Visible(r)] + VisibleAll(rest)
  {
  }

  /** Once the resident caches exist, the caches an old call brings never matter: replacing them changes neither
      the outputs (the returned caches included) nor the state, over any further run. */
  lemma {:induction false} LaterCachesIgnored(d: Device, calls: seq<OldCall>, others: seq<OldCall>)
    requires d.ready && |calls| == |others|
    requires forall i | 0 <= i < |calls| ::
               && Comparable(calls[i]) && Comparable(others[i])
               && Reduce(calls[i].inputs) == Reduce(others[i].inputs) && calls[i].ctx == others[i].ctx
    ensures OldRun(d, calls) == OldRun(d, others)
    decreases |calls|
  {
    if calls != [] {
      var a, b := calls[0], others[0];
      assert a.inputs[9] == Reduce(a.inputs)[7] == b.inputs[9];
      assert Reduce(a.inputs)[0] == a.inputs[0] && Reduce(b.inputs)[0] == b.inputs[0];
      DecodeAgrees(a);
      DecodeAgrees(b);
      assert OldProc(d, a.inputs, a.ctx) == OldProc(d, b.inputs, b.ctx);
      CallReady(d, a);
      LaterCachesIgnored(OldProc(d, a.inputs, a.ctx).0, calls[1..], others[1..]);
    }
  }

  lemma CallReady(d: Device, c: OldCall)
    requires d.ready
    ensures OldProc(d, c.inputs, c.ctx).0.ready
  {
    var decoded := OldDecode(c.inputs, c.ctx);
    if decoded.Some? {
      EpochsAgree(d, decoded.value.e, c.ctx);
      EpochReady(d, decoded.value.e, c.ctx);
    }
  }
}
