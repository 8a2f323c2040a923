/** The native bridge between the sidecar protocol and the device: the eight messages it feeds, what it rejects
    before feeding, and how it reads the two messages it fetches. */
module Bridge {
  import opened Layout
  import opened Flow
  import opened EpochSpec

  const ACCEPTED := 0
  const BAD_CALL := 10
  const BAD_ROW := 11
  const BAD_COUNT := 12
  const BAD_EXECUTED := 33
  const BAD_CHECKSUM := 34
  const CONFIGURED_EOS := 151645

  type Payload = p: seq<Byte> | |p| == PAYLOAD_BYTES witness seq<Byte>(PAYLOAD_BYTES, _ => 0)
  type Tiling = t: seq<Byte> | |t| == 72 witness seq<Byte>(72, _ => 0)

  /** The KV import of a call: the mask and the payload, from a file or assembled on the device. */
  datatype KvImport = NoImport | KvPayload(mask: int, payload: Payload)

  /** The arguments of `resident_epoch_execute`; a row with generation 0 is empty. */
  datatype Args = Args(
    count: int, maxSteps: int, token: Row4, position: Row4, length: Row4, eos: Row4, generation: Row4,
    kv: KvImport, tiling: Tiling)

  /** Both transfer checks let only rows of the call be selected, each with its own positive generation. */
  predicate ImportMatches(a: Args) {
    a.kv.NoImport? || (0 < a.kv.mask < 16 && forall r: nat | r < BATCH && Bit(a.kv.mask, r) :: a.generation[r] > 0)
  }

  predicate RowRejected(a: Args, r: nat)
    requires r < BATCH
  {
    a.generation[r] != 0 &&
    !(a.generation[r] > 0 && 0 <= a.token[r] < VOCAB_SIZE && 0 <= a.position[r]
      && a.position[r] + a.maxSteps <= LOGICAL_CAPACITY && a.length[r] == a.position[r] + 1
      && 0 <= a.eos[r] < VOCAB_SIZE)
  }

  /** What the bridge answers before feeding anything. */
  function Code(a: Args): int {
    if !(1 <= a.count <= BATCH && 1 <= a.maxSteps <= MAX_EPOCH_STEPS) then BAD_CALL
    else if exists r: nat :: r < BATCH && RowRejected(a, r) then BAD_ROW
    else if CountActive(a.generation) != a.count then BAD_COUNT
    else ACCEPTED
  }

  function BridgeSlot(row: int, position: int): int {
    if !(0 <= row < BATCH && 0 <= position < LOGICAL_CAPACITY) then -1
    else row * BLOCKS_PER_REQUEST * BLOCK_SIZE + position
  }

  function Live(a: Args, r: nat, value: int, empty: int): int
    requires r < BATCH
  {
    if a.generation[r] != 0 then value else empty
  }

  function LiveRow(a: Args, values: Row4, empty: int): Row4 {
    [Live(a, 0, values[0], empty), Live(a, 1, values[1], empty), Live(a, 2, values[2], empty), Live(a, 3, values[3], empty)]
  }

  function SlotsAt(p: Row4): Row4 {
    [BridgeSlot(0, p[0]), BridgeSlot(1, p[1]), BridgeSlot(2, p[2]), BridgeSlot(3, p[3])]
  }

  function Slots(a: Args): Row4 { SlotsAt(LiveRow(a, a.position, 0)) }

  function Variant(a: Args): int { if a.kv.NoImport? then 0 else IMPORT_GRAPH_FLAG + a.kv.mask }

  function ControlMessage(a: Args): (c: seq<int>)
    ensures |c| == CONTROL_INPUTS
  {
    [a.maxSteps] + LiveRow(a, a.eos, CONFIGURED_EOS) + [0, Variant(a)] + a.generation
  }

  /** The eight messages fed to the device; an import's payload takes the place of the slot mapping. */
  function Messages(a: Args): (m: seq<Tensor>)
    ensures |m| == 8
  {
    var token, position, length := LiveRow(a, a.token, 0), LiveRow(a, a.position, 0), LiveRow(a, a.length, 0);
    var active := LiveRow(a, [1, 1, 1, 1], 0);
    var tail := [Int32(active), Int32(IDENTITY_TABLE), UInt8(a.tiling), Int32(ControlMessage(a))];
    if a.kv.NoImport? then [Int64(token), Int64(position), Int32(length), Int32(Slots(a))] + tail
    else [UInt8(a.kv.payload), Int64(token), Int64(position), Int32(length)] + tail
  }

  /** A buffer in which only the first `n` rows have been filled. */
  function Filled(a: Args, values: Row4, empty: int, n: nat): Row4 {
    [if 0 < n then Live(a, 0, values[0], empty) else empty, if 1 < n then Live(a, 1, values[1], empty) else empty,
     if 2 < n then Live(a, 2, values[2], empty) else empty, if 3 < n then Live(a, 3, values[3], empty) else empty]
  }

  lemma FilledNext(a: Args, values: Row4, empty: int, n: nat)
    requires n < BATCH
    ensures Filled(a, values, empty, n + 1) ==
            if a.generation[n] != 0 then Filled(a, values, empty, n)[n := values[n]] else Filled(a, values, empty, n)
  {
  }

  /** Fill the buffers row by row, as far as the first bad row. */
  method FillRows(a: Args)
    returns (ok: bool, activeCount: int, tokens: Row4, positions: Row4, lengths: Row4, slots: Row4, active: Row4, eos: Row4)
    ensures ok == forall r: nat | r < BATCH :: !RowRejected(a, r)
    ensures ok ==>
              && activeCount == CountActive(a.generation) && tokens == LiveRow(a, a.token, 0)
              && positions == LiveRow(a, a.position, 0) && lengths == LiveRow(a, a.length, 0) && slots == Slots(a)
              && active == LiveRow(a, [1, 1, 1, 1], 0) && eos == LiveRow(a, a.eos, CONFIGURED_EOS)
  {
    var zeros: Row4 := [0, 0, 0, 0];
    tokens, positions, lengths, active := zeros, zeros, zeros, zeros;
    slots := SlotsAt(zeros);
    eos := [CONFIGURED_EOS, CONFIGURED_EOS, CONFIGURED_EOS, CONFIGURED_EOS];
    activeCount := 0;
    for row := 0 to BATCH
      invariant activeCount == CountActive(a.generation[..row])
      invariant forall r: nat | r < row :: !RowRejected(a, r)
      invariant tokens == Filled(a, a.token, 0, row) && positions == Filled(a, a.position, 0, row)
      invariant lengths == Filled(a, a.length, 0, row) && active == Filled(a, [1, 1, 1, 1], 0, row)
      invariant eos == Filled(a, a.eos, CONFIGURED_EOS, row)
      invariant slots == SlotsAt(positions)
    {
      assert a.generation[..row + 1][..row] == a.generation[..row];
      FilledNext(a, a.token, 0, row);
      FilledNext(a, a.position, 0, row);
      FilledNext(a, a.length, 0, row);
      FilledNext(a, [1, 1, 1, 1], 0, row);
      FilledNext(a, a.eos, CONFIGURED_EOS, row);
      if a.generation[row] == 0 { continue; }
      activeCount := activeCount + 1;
      if a.generation[row] < 0 || a.token[row] < 0 || a.token[row] >= VOCAB_SIZE || a.position[row] < 0
         || a.position[row] + a.maxSteps > LOGICAL_CAPACITY || a.length[row] != a.position[row] + 1
         || a.eos[row] < 0 || a.eos[row] >= VOCAB_SIZE
      {
        assert RowRejected(a, row);
        ok := false;
        return;
      }
      tokens := tokens[row := a.token[row]];
      positions := positions[row := a.position[row]];
      lengths := lengths[row := a.length[row]];
      slots := slots[row := BridgeSlot(row, a.position[row])];
      active := active[row := 1];
      eos := eos[row := a.eos[row]];
    }
    assert a.generation[..BATCH] == a.generation;
    ok := true;
  }

  /** A row that is not empty and whose generation, token, position, length or EOS is out of range. */
  ghost predicate UnfitRow(a: Args, r: nat)
    requires r < BATCH
  {
    || a.generation[r] < 0
    || (a.generation[r] > 0
        && (a.token[r] < 0 || a.token[r] >= 152064 || a.position[r] < 0 || a.position[r] + a.maxSteps > 8 || a.length[r] != a.position[r] + 1
            || a.eos[r] < 0 || a.eos[r] >= 152064))
  }

  ghost function LiveRows(a: Args): set<nat> { set r: nat | r < BATCH && a.generation[r] != 0 }

  lemma {:induction false} CountIsLiveUpTo(g: Row4, n: nat)
    requires n <= BATCH
    ensures CountActive(g[..n]) == |set r: nat | r < n && g[r] != 0|
  {
    if n > 0 {
      CountIsLiveUpTo(g, n - 1);
      assert g[..n][..n - 1] == g[..n - 1];
      var before, now := set r: nat | r < n - 1 && g[r] != 0, set r: nat | r < n && g[r] != 0;
      assert now == if g[n - 1] != 0 then before + {n - 1} else before;
    }
  }

  /** The active count is the number of rows that are not empty. */
  lemma CountIsLive(a: Args)
    ensures CountActive(a.generation) == |LiveRows(a)|
  {
    CountIsLiveUpTo(a.generation, BATCH);
    assert a.generation[..BATCH] == a.generation;
  }

  /** The bridge's checks and the messages it builds. */
  method BuildMessages(a: Args) returns (code: int, messages: seq<Tensor>)
    ensures code == Code(a)
    ensures code == 10 <==> a.count < 1 || a.count > 4 || a.maxSteps < 1 || a.maxSteps > 8
    ensures code == 11 <==> code != 10 && exists r: nat :: r < 4 && UnfitRow(a, r)
    ensures code == 12 <==> code != 10 && code != 11 && |LiveRows(a)| != a.count
    ensures code == 0 <==> code != 10 && code != 11 && code != 12
    ensures code == ACCEPTED ==> messages == Messages(a)
  {
    messages := [];
    assert forall r: nat | r < BATCH :: RowRejected(a, r) <==> UnfitRow(a, r);
    if a.count < 1 || a.count > BATCH || a.maxSteps < 1 || a.maxSteps > MAX_EPOCH_STEPS { return BAD_CALL, []; }
    var ok, activeCount, tokens, positions, lengths, slots, active, eos := FillRows(a);
    if !ok { return BAD_ROW, []; }
    CountIsLive(a);
    if activeCount != a.count { return BAD_COUNT, []; }
    var control := [a.maxSteps] + eos + [0, if a.kv.NoImport? then 0 else IMPORT_GRAPH_FLAG + a.kv.mask] + a.generation;
    var tail := [Int32(active), Int32(IDENTITY_TABLE), UInt8(a.tiling), Int32(control)];
    if a.kv.NoImport? {
      messages := [Int64(tokens), Int64(positions), Int32(lengths), Int32(slots)] + tail;
    } else {
      messages := [UInt8(a.kv.payload), Int64(tokens), Int64(positions), Int32(lengths)] + tail;
    }
    code := ACCEPTED;
  }

  // ----- what the device reads from these messages

  function FedRow(a: Args, r: nat): RowInput
    requires r < BATCH
  {
    RowInput(a.generation[r], Live(a, r, a.token[r], 0), Live(a, r, a.position[r], 0), Live(a, r, a.length[r], 0),
             BridgeSlot(r, Live(a, r, a.position[r], 0)), Live(a, r, 1, 0), Live(a, r, a.eos[r], CONFIGURED_EOS))
  }

  /** The call the device decodes from the messages. */
  function Fed(a: Args): (e: EpochInput)
    ensures e.Typed()
  {
    EpochInput(a.maxSteps, 0, 0, a.kv.KvPayload?, if a.kv.KvPayload? then a.kv.mask else 0,
               if a.kv.KvPayload? then a.kv.payload else [],
               [FedRow(a, 0), FedRow(a, 1), FedRow(a, 2), FedRow(a, 3)], IDENTITY_TABLE, a.tiling)
  }

  lemma IdentitySlot(r: nat, position: int)
    requires r < BATCH && 0 <= position < LOGICAL_CAPACITY
    ensures ComputeSlot(IDENTITY_TABLE, r, position) == BridgeSlot(r, position) >= 0
  {
    assert IDENTITY_TABLE[r * 2] == r * 2;
  }

  lemma FedRowDecodes(a: Args, slot: Option<Row4>, r: nat)
    requires Code(a) == ACCEPTED && r < BATCH
    requires slot == if a.kv.NoImport? then Some(Slots(a)) else None
    ensures RowOfTensors(ControlMessage(a), LiveRow(a, a.token, 0), LiveRow(a, a.position, 0), LiveRow(a, a.length, 0),
                         slot, LiveRow(a, [1, 1, 1, 1], 0), IDENTITY_TABLE, r) == FedRow(a, r)
  {
    assert !RowRejected(a, r);
    var control := ControlMessage(a);
    assert control[7 + r] == a.generation[r] && control[1 + r] == LiveRow(a, a.eos, CONFIGURED_EOS)[r];
    assert LiveRow(a, a.position, 0)[r] == Live(a, r, a.position[r], 0);
    IdentitySlot(r, Live(a, r, a.position[r], 0));
  }

  /** Accepted arguments decode to themselves. */
  lemma FedDecodes(a: Args, ctx: Context)
    requires Code(a) == ACCEPTED && ImportMatches(a) && ctx.outputsAllocated && (a.kv.KvPayload? ==> ctx.slotsAllocated)
    ensures Decode(Messages(a), ctx) == Some(Fed(a))
  {
    FedVariant(a);
    var slot := if a.kv.NoImport? then Some(Slots(a)) else None;
    FedRowDecodes(a, slot, 0);
    FedRowDecodes(a, slot, 1);
    FedRowDecodes(a, slot, 2);
    FedRowDecodes(a, slot, 3);
    FedShape(a, ctx);
  }

  /** What the device reads of a row: nothing of an empty one, and all of the others, with the slot of its position. */
  ghost predicate ReadAs(a: Args, r: nat, x: RowInput)
    requires r < BATCH
  {
    if a.generation[r] == 0 then x == RowInput(0, 0, 0, 0, r * 256, 0, 151645)
    else x == RowInput(a.generation[r], a.token[r], a.position[r], a.length[r], r * 256 + a.position[r], 1, a.eos[r])
  }

  /** The device reads from accepted arguments' messages exactly the arguments. */
  lemma DeviceReads(a: Args, ctx: Context)
    requires Code(a) == ACCEPTED && ImportMatches(a) && ctx.outputsAllocated && (a.kv.KvPayload? ==> ctx.slotsAllocated)
    ensures var decoded := Decode(Messages(a), ctx);
            && decoded.Some?
            && var e := decoded.value;
               && e.maxSteps == a.maxSteps && e.sampling == 0 && e.graph == 0 && e.table == [0, 1, 2, 3, 4, 5, 6, 7] && e.tiling == a.tiling
               && (match a.kv case NoImport => !e.importing case KvPayload(mask, payload) => e.importing && e.mask == mask && e.payload == payload)
               && forall r: nat | r < 4 :: ReadAs(a, r, e.rows[r])
  {
    FedDecodes(a, ctx);
    forall r: nat | r < BATCH
      ensures ReadAs(a, r, Fed(a).rows[r])
    {
      assert Fed(a).rows[r] == FedRow(a, r) && !RowRejected(a, r);
    }
  }

  lemma FedShape(a: Args, ctx: Context)
    requires ImportMatches(a) && ctx.outputsAllocated && (a.kv.KvPayload? ==> ctx.slotsAllocated)
    ensures Decode(Messages(a), ctx) ==
            Some(InputOfTensors(ControlMessage(a), if a.kv.KvPayload? then a.kv.payload else [],
                                LiveRow(a, a.token, 0), LiveRow(a, a.position, 0), LiveRow(a, a.length, 0),
                                if a.kv.NoImport? then Some(Slots(a)) else None,
                                LiveRow(a, [1, 1, 1, 1], 0), IDENTITY_TABLE, a.tiling))
  {
    FedVariant(a);
    assert ControlMessage(a)[6] == Variant(a);
  }

  lemma FedVariant(a: Args)
    requires ImportMatches(a)
    ensures HasImportFlag(Variant(a)) == a.kv.KvPayload? && GraphVariant(Variant(a)) == 0
    ensures a.kv.KvPayload? ==> ImportMask(Variant(a)) == a.kv.mask
  {
  }

  lemma FedRowValid(a: Args, e: EpochInput, r: nat)
    requires r < BATCH && !RowRejected(a, r) && e.rows[r] == FedRow(a, r) && e.table == IDENTITY_TABLE && e.maxSteps == a.maxSteps >= 1
    ensures RowStatus(e, r) == OK && 0 <= e.rows[r].eos < VOCAB_SIZE
    ensures e.rows[r].active == 1 <==> a.generation[r] != 0
  {
    if 0 <= e.rows[r].position < LOGICAL_CAPACITY { IdentitySlot(r, e.rows[r].position); }
  }

  lemma FedValid(a: Args)
    requires Code(a) == ACCEPTED && ImportMatches(a)
    ensures InputStatus(Fed(a)) == OK && Fed(a).table == IDENTITY_TABLE
    ensures Fed(a).importing ==> forall r: nat | r < BATCH && Bit(Fed(a).mask, r) :: Importable(Fed(a).rows[r])
  {
    var e := Fed(a);
    assert ValidTable(IDENTITY_TABLE);
    forall r: nat | r < BATCH
      ensures RowStatus(e, r) == OK && 0 <= e.rows[r].eos < VOCAB_SIZE && e.rows[r].generation == a.generation[r]
      ensures e.rows[r].active == 1 <==> a.generation[r] != 0
    {
      assert !RowRejected(a, r);
      assert e.rows[r] == FedRow(a, r);
      FedRowValid(a, e, r);
    }
    assert EosInRange(e);
  }

  // ----- reading the outputs

  /** The outputs of the bridge: per row, its tokens padded with -1, how many, and its acknowledged generation. */
  datatype BridgeOutputs = BridgeOutputs(status: int, modelCalls: int, checksum: int, executed: Row4, generation: Row4, tokens: History)

  function RowTokens(o: BridgeOutputs, r: nat): seq<int>
    requires r < BATCH && 0 <= o.executed[r] <= MAX_EPOCH_STEPS
  {
    o.tokens[r * MAX_EPOCH_STEPS..r * MAX_EPOCH_STEPS + o.executed[r]]
  }

  /** The executed count the control output reports for a row. */
  function Executed(control: seq<int>, r: nat): int
    requires |control| == CONTROL_OUTPUTS && r < BATCH
  {
    control[14 + r]
  }

  /** Entry `i` of the row-major tokens: row `i / 8`, step `i % 8`. */
  function RowCell(history: History, executed: int, i: nat): int
    requires i < HISTORY
  {
    if i % MAX_EPOCH_STEPS < executed then history[i % MAX_EPOCH_STEPS * BATCH + i / MAX_EPOCH_STEPS] else -1
  }

  /** The outputs the bridge makes of the two messages it fetched. */
  predicate CollectedFrom(history: History, control: seq<int>, o: BridgeOutputs)
    requires |control| == CONTROL_OUTPUTS
  {
    && o.status == control[3] && o.modelCalls == control[4] && o.checksum == control[5]
    && o.executed == control[14..18] && o.generation == control[24..28]
    && forall i: nat | i < HISTORY :: o.tokens[i] == RowCell(history, Executed(control, i / MAX_EPOCH_STEPS), i)
  }

  predicate CountsInRange(maxSteps: int, control: seq<int>)
    requires |control| == CONTROL_OUTPUTS
  {
    forall r: nat | r < BATCH :: 0 <= Executed(control, r) <= maxSteps
  }

  method CopyRow(tokens: array<int>, history: History, row: nat, executed: nat)
    requires tokens.Length == HISTORY && row < BATCH && executed <= MAX_EPOCH_STEPS
    requires forall i: nat | i < HISTORY && i / MAX_EPOCH_STEPS == row :: tokens[i] == -1
    modifies tokens
    ensures forall i: nat | i < HISTORY ::
              tokens[i] == if i / MAX_EPOCH_STEPS == row then RowCell(history, executed, i) else old(tokens[i])
  {
    for step := 0 to executed
      invariant forall i: nat | i < HISTORY ::
                  tokens[i] == if i / MAX_EPOCH_STEPS == row then RowCell(history, step, i) else old(tokens[i])
    {
      tokens[row * MAX_EPOCH_STEPS + step] := history[step * BATCH + row];
    }
  }

  /** Turn the step-major history into rows. */
  method Collect(maxSteps: int, history: History, control: seq<int>) returns (code: int, o: BridgeOutputs)
    requires 1 <= maxSteps <= MAX_EPOCH_STEPS && |control| == CONTROL_OUTPUTS
    ensures code == if CountsInRange(maxSteps, control) then ACCEPTED else BAD_EXECUTED
    ensures code == ACCEPTED ==> CollectedFrom(history, control, o)
  {
    var tokens := new int[HISTORY](_ => -1);
    for row := 0 to BATCH
      invariant forall r: nat | r < row :: 0 <= Executed(control, r) <= maxSteps
      invariant forall i: nat | i < HISTORY ::
                  tokens[i] == if i / MAX_EPOCH_STEPS < row then RowCell(history, Executed(control, i / MAX_EPOCH_STEPS), i) else -1
    {
      var executed := control[14 + row];
      assert executed == Executed(control, row);
      if executed < 0 || executed > maxSteps {
        return BAD_EXECUTED, BridgeOutputs(0, 0, 0, [0, 0, 0, 0], [0, 0, 0, 0], NoHistory());
      }
      CopyRow(tokens, history, row, executed);
    }
    code := ACCEPTED;
    o := BridgeOutputs(control[3], control[4], control[5], control[14..18], control[24..28], tokens[..]);
  }
}
