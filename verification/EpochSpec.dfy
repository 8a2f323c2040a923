/** What one call of the resident epoch controller does to its state, as functions.

    The controller classes are proved against these functions; the properties of whole runs are
    proved about them. */
module EpochSpec {
  import opened Layout
  import opened Flow
  import opened Adler

  const OK := 0
  const INVALID_METADATA := 201
  const CAPACITY_EXCEEDED := 202
  const INVALID_BLOCK_TABLE := 203
  const SLOT_MISMATCH := 204
  const UNSUPPORTED_SAMPLING := 205
  const UNSUPPORTED_GRAPH := 206
  const MODEL_ERROR := 207
  const INVALID_MODEL_OUTPUT := 208
  const NON_FINITE_LOGITS := 209
  const POSITION_PROGRESS := 210
  const ALLOCATION_FAILURE := 211
  const RESIDENT_CONTINUITY := 212

  const FINISH_NONE := 0
  const FINISH_EOS := 1
  const FINISH_MAX_STEPS := 2
  const FINISH_FALLBACK := 3
  const FINISH_EMPTY := 4
  const FINISH_ALREADY := 5

  const IMPORT_GRAPH_FLAG := 0x100
  const CONTROL_INPUTS := 11
  const CONTROL_OUTPUTS := 28
  const HISTORY := 32 // MAX_EPOCH_STEPS * BATCH

  type Table = t: seq<int> | |t| == BATCH * BLOCKS_PER_REQUEST witness [0, 1, 2, 3, 4, 5, 6, 7]
  type History = h: seq<int> | |h| == HISTORY witness seq(HISTORY, _ => -1)

  const IDENTITY_TABLE: Table := [0, 1, 2, 3, 4, 5, 6, 7]

  /** What the controller remembers about a row between calls. */
  datatype Meta = Meta(generation: int, token: int, position: int, length: int, valid: int)
  type Metas = s: seq<Meta> | |s| == BATCH witness [NO_META, NO_META, NO_META, NO_META]
  const NO_META := Meta(0, 0, 0, 0, 0)

  /** The resident state; before the caches are allocated (`!ready`) they count as zero. */
  datatype Device = Device(ready: bool, key: Cache, value: Cache, rows: Metas)

  function Initial(): Device { Device(false, ZeroCache(), ZeroCache(), [NO_META, NO_META, NO_META, NO_META]) }

  /** One row's arguments. */
  datatype RowInput = RowInput(generation: int, token: int, position: int, length: int, slot: int, active: int, eos: int)
  type RowInputs = s: seq<RowInput> | |s| == BATCH witness [NO_INPUT, NO_INPUT, NO_INPUT, NO_INPUT]
  const NO_INPUT := RowInput(0, 0, 0, 0, 0, 0, 0)

  /** One call's arguments, once the tensor ABI has been checked. */
  datatype EpochInput = EpochInput(
    maxSteps: int, sampling: int, graph: int, importing: bool, mask: int, payload: seq<Byte>,
    rows: RowInputs, table: Table, tiling: seq<Byte>)
  {
    predicate Typed() { importing ==> |payload| == PAYLOAD_BYTES }
  }

  // ----- reading the eight input messages

  predicate HasImportFlag(encoded: int) { encoded / IMPORT_GRAPH_FLAG % 2 == 1 }

  /** `encoded & 0xFF` when importing, else 0 (two's complement, hence floored division). */
  function ImportMask(encoded: int): int {
    if HasImportFlag(encoded) then encoded % IMPORT_GRAPH_FLAG else 0
  }

  /** `encoded & ~(0x100 | 0xF)` when importing, else unchanged. */
  function GraphVariant(encoded: int): int {
    if HasImportFlag(encoded) then encoded - IMPORT_GRAPH_FLAG - encoded % 16 else encoded
  }

  /** Row `r` of the common tensors; `slot` is absent when the controller computes the slots itself. */
  function RowOfTensors(control: seq<int>, token: Row4, position: Row4, length: Row4, slot: Option<Row4>,
                        active: Row4, table: Table, r: nat): RowInput
    requires |control| == CONTROL_INPUTS && r < BATCH
  {
    RowInput(control[7 + r], token[r], position[r], length[r],
             if slot.Some? then slot.value[r] else ComputeSlot(table, r, position[r]),
             active[r], control[1 + r])
  }

  function InputOfTensors(control: seq<int>, payload: seq<Byte>, token: Row4, position: Row4, length: Row4,
                          slot: Option<Row4>, active: Row4, table: Table, tiling: seq<Byte>): EpochInput
    requires |control| == CONTROL_INPUTS
  {
    EpochInput(control[0], control[5], GraphVariant(control[6]), HasImportFlag(control[6]), ImportMask(control[6]), payload,
               [RowOfTensors(control, token, position, length, slot, active, table, 0),
                RowOfTensors(control, token, position, length, slot, active, table, 1),
                RowOfTensors(control, token, position, length, slot, active, table, 2),
                RowOfTensors(control, token, position, length, slot, active, table, 3)],
               table, tiling)
  }

  /** The arguments carried by eight messages, or nothing when they break the tensor ABI. */
  function Decode(inputs: seq<Tensor>, ctx: Context): (r: Option<EpochInput>)
    ensures r.Some? ==> r.value.Typed()
  {
    if |inputs| != 8 || !ctx.outputsAllocated || !IsInt32(inputs[7], CONTROL_INPUTS) then None
    else
      var control := inputs[7].i32;
      var importing := HasImportFlag(control[6]);
      var at := if importing then 1 else 0;
      if !(IsInt64(inputs[at], BATCH) && IsInt64(inputs[at + 1], BATCH) && IsInt32(inputs[at + 2], BATCH)
           && (if importing then ctx.slotsAllocated else IsInt32(inputs[3], BATCH))
           && IsInt32(inputs[4], BATCH) && IsInt32(inputs[5], BATCH * BLOCKS_PER_REQUEST) && IsUInt8(inputs[6], 72)
           && (importing ==> IsUInt8(inputs[0], PAYLOAD_BYTES)))
      then None
      else
        Some(InputOfTensors(control, if importing then inputs[0].u8 else [],
                            inputs[at].i64, inputs[at + 1].i64, inputs[at + 2].i32,
                            if importing then None else Some(inputs[3].i32),
                            inputs[4].i32, inputs[5].i32, inputs[6].u8))
  }

  // ----- validation

  predicate ValidTable(t: Table) {
    && (forall i :: 0 <= i < |t| ==> 0 <= t[i] < PHYSICAL_BLOCKS)
    && (forall i, j :: 0 <= i < j < |t| ==> t[i] != t[j])
  }

  function RowStatus(e: EpochInput, r: nat): int
    requires r < BATCH
  {
    var x := e.rows[r];
    if !(x.active == 0 || x.active == 1) || !(0 <= x.token < VOCAB_SIZE) || !(0 <= x.position < LOGICAL_CAPACITY)
    then INVALID_METADATA
    else if x.active == 1 && (x.generation <= 0 || x.length != x.position + 1) then INVALID_METADATA
    else if x.active == 1 && x.position + e.maxSteps > LOGICAL_CAPACITY then CAPACITY_EXCEEDED
    else if x.active == 0 && x.length == 0 && x.generation != 0 then INVALID_METADATA
    else if x.active == 0 && x.length != 0 && x.length != x.position + 1 then INVALID_METADATA
    else if ComputeSlot(e.table, r, x.position) != x.slot then SLOT_MISMATCH
    else OK
  }

  /** Status of the first bad row from `r` on. */
  function RowsStatus(e: EpochInput, r: nat): (s: int)
    requires r <= BATCH
    ensures s == OK <==> forall i :: r <= i < BATCH ==> RowStatus(e, i) == OK
    ensures s != OK ==> exists i :: r <= i < BATCH && s == RowStatus(e, i)
    decreases BATCH - r
  {
    if r == BATCH then OK
    else if RowStatus(e, r) != OK then RowStatus(e, r)
    else RowsStatus(e, r + 1)
  }

  predicate EosInRange(e: EpochInput) { forall r: nat | r < BATCH :: 0 <= e.rows[r].eos < VOCAB_SIZE }

  function InputStatus(e: EpochInput): int {
    if e.sampling != 0 then UNSUPPORTED_SAMPLING
    else if e.graph != 0 then UNSUPPORTED_GRAPH
    else if !(1 <= e.maxSteps <= MAX_EPOCH_STEPS) then INVALID_METADATA
    else if !EosInRange(e) then INVALID_METADATA
    else if !ValidTable(e.table) then INVALID_BLOCK_TABLE
    else RowsStatus(e, 0)
  }

  // ----- KV import

  /** Block `i` of a payload: `layer * BATCH + row`, the values after all the keys. */
  function PayloadBlock(p: seq<Byte>, i: nat): Block
    requires |p| == PAYLOAD_BYTES && i < 2 * HALF_BLOCKS
  {
    p[i * BLOCK_BYTES..(i + 1) * BLOCK_BYTES]
  }

  function PayloadBlocks(p: seq<Byte>): (r: seq<Block>)
    requires |p| == PAYLOAD_BYTES
    ensures |r| == 2 * HALF_BLOCKS
  {
    seq<Block>(2 * HALF_BLOCKS, i requires 0 <= i < 2 * HALF_BLOCKS => PayloadBlock(p, i))
  }

  function ImportedBlock(c: Cache, p: seq<Byte>, base: nat, row: nat, i: nat): Block
    requires |p| == PAYLOAD_BYTES && row < BATCH && base <= HALF_BLOCKS && i < CACHE_BLOCKS
  {
    if OwnerRow(i) != row then c[i]
    else if i % 2 == 0 then PayloadBlock(p, base + i / PHYSICAL_BLOCKS * BATCH + row)
    else ZeroBlock()
  }

  /** A cache after importing `row`: per layer its first block from the payload half at `base`, its second zero. */
  function ImportedCache(c: Cache, p: seq<Byte>, base: nat, row: nat): Cache
    requires |p| == PAYLOAD_BYTES && row < BATCH && base <= HALF_BLOCKS
  {
    seq<Block>(CACHE_BLOCKS, i requires 0 <= i < CACHE_BLOCKS => ImportedBlock(c, p, base, row, i))
  }

  function ImportedMeta(x: RowInput): Meta { Meta(x.generation, x.token, x.position, x.length, 1) }

  function ImportRow(d: Device, e: EpochInput, row: nat): Device
    requires e.importing && e.Typed() && row < BATCH
  {
    d.(key := ImportedCache(d.key, e.payload, 0, row),
       value := ImportedCache(d.value, e.payload, HALF_BLOCKS, row),
       rows := d.rows[row := ImportedMeta(e.rows[row])])
  }

  predicate Importable(x: RowInput) { x.active == 1 && x.generation > 0 }

  /** Import the selected rows from `row` on; a selected row that is not active stops the import half-way. */
  function ImportRows(d: Device, e: EpochInput, row: nat): (Device, int)
    requires e.importing && e.Typed() && row <= BATCH
    decreases BATCH - row
  {
    if row == BATCH then (d, OK)
    else if !Bit(e.mask, row) then ImportRows(d, e, row + 1)
    else if !Importable(e.rows[row]) then (d, INVALID_METADATA)
    else ImportRows(ImportRow(d, e, row), e, row + 1)
  }

  function Import(d: Device, e: EpochInput): (Device, int)
    requires e.Typed()
  {
    if !e.importing then (d, OK)
    else if !(0 < e.mask < 16) then (d, INVALID_METADATA)
    else ImportRows(d, e, 0)
  }

  /** The first block of every (layer, row), as the import checksum visits them. */
  function FirstBlocks(c: Cache): (r: seq<Block>)
    ensures |r| == HALF_BLOCKS
  {
    seq<Block>(HALF_BLOCKS, i requires 0 <= i < HALF_BLOCKS => c[i / BATCH * PHYSICAL_BLOCKS + i % BATCH * 2])
  }

  function DeviceChecksum(d: Device, e: EpochInput): nat {
    if e.importing then Pack(BlocksSum(FirstBlocks(d.key) + FirstBlocks(d.value), 2 * HALF_BLOCKS, e.mask, START)) else 0
  }

  // ----- continuity and new leases

  predicate Continues(m: Meta, x: RowInput) {
    if x.active == 0 then true
    else if m.generation == x.generation then
      m.valid != 0 && m.token == x.token && m.position == x.position && m.length == x.length
    else x.position == 0 && x.length == 1
  }

  predicate NewLease(m: Meta, x: RowInput) { x.active != 0 && m.generation != x.generation }

  predicate Continuity(d: Device, e: EpochInput) { forall r: nat | r < BATCH :: Continues(d.rows[r], e.rows[r]) }

  predicate Clears(d: Device, e: EpochInput, i: nat) { NewLease(d.rows[OwnerRow(i)], e.rows[OwnerRow(i)]) }

  /** A cache with the rows of the new leases cleared. */
  function ClearedCache(c: Cache, d: Device, e: EpochInput): Cache {
    seq<Block>(CACHE_BLOCKS, i requires 0 <= i < CACHE_BLOCKS => if Clears(d, e, i) then ZeroBlock() else c[i])
  }

  function ClearNew(d: Device, e: EpochInput): Device {
    d.(key := ClearedCache(d.key, d, e), value := ClearedCache(d.value, d, e))
  }

  // ----- the decode loop

  /** One row inside an epoch: the decoder's next arguments for it and the tokens it has made. */
  datatype Lane = Lane(token: int, position: int, length: int, slot: int, active: int, reason: int, made: seq<int>)
  type Lanes = s: seq<Lane> | |s| == BATCH witness [NO_LANE, NO_LANE, NO_LANE, NO_LANE]
  const NO_LANE := Lane(0, 0, 0, 0, 0, 0, [])

  datatype Loop = Loop(calls: nat, lanes: Lanes, key: Cache, value: Cache)

  datatype Outcome = Halt(status: int, calls: nat, lanes: Lanes) | Go(l: Loop)

  function InitialReason(x: RowInput): int {
    if x.active == 1 then FINISH_NONE else if x.length == 0 then FINISH_EMPTY else FINISH_ALREADY
  }

  function StartLane(x: RowInput): Lane {
    Lane(x.token, x.position, x.length, x.slot, x.active, InitialReason(x), [])
  }

  function Start(e: EpochInput, d: Device): Loop {
    Loop(0, [StartLane(e.rows[0]), StartLane(e.rows[1]), StartLane(e.rows[2]), StartLane(e.rows[3])], d.key, d.value)
  }

  function NextSlot(table: Table, r: nat, position: int): int {
    if position == LOGICAL_CAPACITY then -1 else ComputeSlot(table, r, position)
  }

  /** The lane after sampling `token` and moving to `position`. */
  function Advance(e: EpochInput, lane: Lane, r: nat, token: int, position: int): Lane
    requires r < BATCH
  {
    var stop := token == e.rows[r].eos;
    Lane(token, position, position + 1, NextSlot(e.table, r, position),
         if stop then 0 else lane.active, if stop then FINISH_EOS else lane.reason, lane.made + [token])
  }

  /** One row of one step, given the decoder's logits and its new position for the row. */
  function StepLane(e: EpochInput, logits: seq<Logit>, next: int, lane: Lane, r: nat): (int, Lane)
    requires r < BATCH && logits != []
  {
    if lane.active == 0 then (if next == lane.position then OK else POSITION_PROGRESS, lane)
    else
      match Greedy(logits)
      case None => (NON_FINITE_LOGITS, lane)
      case Some(token) =>
        if next != lane.position + 1 then (POSITION_PROGRESS, lane)
        else if next != LOGICAL_CAPACITY && ComputeSlot(e.table, r, next) < 0 then
          (CAPACITY_EXCEEDED, Advance(e, lane, r, token, next))
        else (OK, Advance(e, lane, r, token, next))
  }

  /** Rows `r` and on of one step; the first row that fails ends it. */
  function StepLanes(e: EpochInput, logits: seq<Logit>, next: Row4, lanes: Lanes, r: nat): (o: (int, Lanes))
    requires r <= BATCH && |logits| == BATCH * VOCAB_SIZE
    ensures o.0 == OK || DecodeFailure(o.0)
    decreases BATCH - r
  {
    if r == BATCH then (OK, lanes)
    else
      var (status, lane) := StepLane(e, RowLogits(logits, r), next[r], lanes[r], r);
      if status != OK then (status, lanes[r := lane]) else StepLanes(e, logits, next, lanes[r := lane], r + 1)
  }

  function DecoderInput(e: EpochInput, l: Loop): ModelInput {
    var t := l.lanes;
    ModelInput([t[0].token, t[1].token, t[2].token, t[3].token],
               [t[0].position, t[1].position, t[2].position, t[3].position],
               [t[0].length, t[1].length, t[2].length, t[3].length], l.key,
               [t[0].slot, t[1].slot, t[2].slot, t[3].slot],
               [t[0].active, t[1].active, t[2].active, t[3].active], e.table, l.value, e.tiling)
  }

  /** The statuses the decode loop can stop with. */
  predicate DecodeFailure(status: int) { status == CAPACITY_EXCEEDED || MODEL_ERROR <= status <= ALLOCATION_FAILURE }

  /** One decoder call. */
  function Step(ctx: Context, e: EpochInput, l: Loop): (o: Outcome)
    ensures l.calls + 1 == if o.Go? then o.l.calls else o.calls
    ensures o.Halt? ==> DecodeFailure(o.status)
  {
    var ret := ctx.runFlowModel(DecoderInput(e, l));
    var calls := l.calls + 1;
    if !ret.success then Halt(MODEL_ERROR, calls, l.lanes)
    else if !GoodOutputs(ret.outputs) then Halt(INVALID_MODEL_OUTPUT, calls, l.lanes)
    else if !ctx.stepAllocated(l.calls) then Halt(ALLOCATION_FAILURE, calls, l.lanes)
    else
      var (status, lanes) := StepLanes(e, ret.outputs[0].f32, ret.outputs[3].i64, l.lanes, 0);
      if status != OK then Halt(status, calls, lanes)
      else Go(Loop(calls, lanes, ret.outputs[1].blocks, ret.outputs[2].blocks))
  }

  predicate Busy(lanes: Lanes) { exists r: nat :: r < BATCH && lanes[r].active != 0 }

  /** Decoder calls until the epoch bound or until no row is active. */
  function RunLoop(ctx: Context, e: EpochInput, l: Loop): (o: Outcome)
    ensures o.Halt? ==> DecodeFailure(o.status)
    decreases e.maxSteps - l.calls
  {
    if l.calls >= e.maxSteps || !Busy(l.lanes) then Go(l)
    else
      match Step(ctx, e, l)
      case Halt(s, c, t) => Halt(s, c, t)
      case Go(n) => RunLoop(ctx, e, n)
  }

  // ----- the whole call

  /** How a call ends: its status, import checksum, and the loop state the outputs are taken from. */
  datatype Ending = Ending(status: int, checksum: nat, l: Loop)

  function FallbackLane(x: RowInput, made: seq<int>): Lane { StartLane(x).(reason := FINISH_FALLBACK, made := made) }

  /** A fallback reports the inputs, the resident caches and whatever had been executed. */
  function Fallback(d: Device, e: EpochInput, status: int, checksum: nat, calls: nat, lanes: Lanes): Ending {
    Ending(status, checksum,
           Loop(calls, [FallbackLane(e.rows[0], lanes[0].made), FallbackLane(e.rows[1], lanes[1].made),
                        FallbackLane(e.rows[2], lanes[2].made), FallbackLane(e.rows[3], lanes[3].made)], d.key, d.value))
  }

  function Early(d: Device, e: EpochInput, status: int, checksum: nat): Ending {
    Fallback(d, e, status, checksum, 0, [NO_LANE, NO_LANE, NO_LANE, NO_LANE])
  }

  function FinishedLane(x: RowInput, lane: Lane): Lane {
    if x.active == 1 && lane.reason == FINISH_NONE then lane.(reason := FINISH_MAX_STEPS) else lane
  }

  function Finished(e: EpochInput, l: Loop): Loop {
    l.(lanes := [FinishedLane(e.rows[0], l.lanes[0]), FinishedLane(e.rows[1], l.lanes[1]),
                 FinishedLane(e.rows[2], l.lanes[2]), FinishedLane(e.rows[3], l.lanes[3])])
  }

  function CommitRow(m: Meta, x: RowInput, lane: Lane): Meta {
    if x.active == 0 then m else Meta(x.generation, lane.token, lane.position, lane.length, 1)
  }

  function Commit(d: Device, e: EpochInput, l: Loop): Device {
    d.(key := l.key, value := l.value,
       rows := [CommitRow(d.rows[0], e.rows[0], l.lanes[0]), CommitRow(d.rows[1], e.rows[1], l.lanes[1]),
                CommitRow(d.rows[2], e.rows[2], l.lanes[2]), CommitRow(d.rows[3], e.rows[3], l.lanes[3])])
  }

  /** Everything after validation, import and continuity: `d` has the imported rows. */
  function Decoded(d: Device, e: EpochInput, ctx: Context, checksum: nat): (Device, Ending) {
    var d2 := ClearNew(d, e);
    match RunLoop(ctx, e, Start(e, d2))
    case Halt(s, calls, lanes) => (d2, Fallback(d2, e, s, checksum, calls, lanes))
    case Go(l) => (Commit(d2, e, l), Ending(OK, checksum, Finished(e, l)))
  }

  /** Validation, import and continuity: the state after the import, a status and the import checksum. */
  function Admit(d: Device, e: EpochInput): (Device, int, nat)
    requires e.Typed()
  {
    if InputStatus(e) != OK then (d, InputStatus(e), 0)
    else
      var (d1, status) := Import(d, e);
      if status != OK then (d1, status, 0)
      else (d1, if Continuity(d1, e) then OK else RESIDENT_CONTINUITY, DeviceChecksum(d1, e))
  }

  /** One epoch on allocated caches. */
  function Epoch(d: Device, e: EpochInput, ctx: Context): (Device, Ending)
    requires e.Typed()
  {
    var (d1, status, checksum) := Admit(d, e);
    if status != OK then (d1, Early(d1, e, status, checksum)) else Decoded(d1, e, ctx, checksum)
  }

  // ----- the two output messages

  function HistoryCell(lanes: Lanes, i: nat): int {
    var made := lanes[i % BATCH].made;
    if i / BATCH < |made| then made[i / BATCH] else -1
  }

  function NoHistory(): History { seq<int>(HISTORY, _ => -1) }

  /** The step-major token history: entry `step * BATCH + row`. */
  function HistoryOf(lanes: Lanes): History { seq(HISTORY, i requires 0 <= i < HISTORY => HistoryCell(lanes, i)) }

  function ToInt32(word: nat): int {
    var low := word % 0x1_0000_0000;
    if low < 0x8000_0000 then low else low - 0x1_0000_0000
  }

  function Echo(x: RowInput): int { if x.active == 1 then x.generation else 0 }

  /** The 28-word control output. */
  function Control(e: EpochInput, end: Ending): (c: seq<int>)
    ensures |c| == CONTROL_OUTPUTS
  {
    var x, t := e.rows, end.l.lanes;
    [e.maxSteps, e.sampling, e.graph, end.status, end.l.calls,
     if e.importing then ToInt32(end.checksum) else if end.status == OK then 0 else 1]
    + [x[0].eos, x[1].eos, x[2].eos, x[3].eos]
    + [x[0].active, x[1].active, x[2].active, x[3].active]
    + [|t[0].made|, |t[1].made|, |t[2].made|, |t[3].made|]
    + [t[0].reason, t[1].reason, t[2].reason, t[3].reason]
    + [CountActive([x[0].active, x[1].active, x[2].active, x[3].active]),
       CountActive([t[0].active, t[1].active, t[2].active, t[3].active])]
    + [Echo(x[0]), Echo(x[1]), Echo(x[2]), Echo(x[3])]
  }

  datatype Reply = Failed | Emitted(history: History, control: seq<int>)

  /** One call on eight input messages. */
  function Proc(d: Device, inputs: seq<Tensor>, ctx: Context): (Device, Reply) {
    var decoded := Decode(inputs, ctx);
    if decoded.None? || !(d.ready || ctx.cachesAllocated) then (d, Failed)
    else
      var (d1, end) := Epoch(d.(ready := true), decoded.value, ctx);
      (d1, Emitted(HistoryOf(end.l.lanes), Control(decoded.value, end)))
  }
}
