/** The resident epoch controller: a persistent state machine over four rows and a paged KV cache. */
module Controller {
  import opened Layout
  import opened Flow
  import opened Adler
  import opened EpochSpec
  import opened EpochRun

  // ----- validation

  method CheckTable(t: Table) returns (ok: bool)
    ensures ok == ValidTable(t)
  {
    var seen := new bool[PHYSICAL_BLOCKS](_ => false);
    var index := 0;
    while index < BATCH * BLOCKS_PER_REQUEST
      invariant 0 <= index <= BATCH * BLOCKS_PER_REQUEST
      invariant forall i :: 0 <= i < index ==> 0 <= t[i] < PHYSICAL_BLOCKS && seen[t[i]]
      invariant forall i, j :: 0 <= i < j < index ==> t[i] != t[j]
      invariant forall b :: 0 <= b < PHYSICAL_BLOCKS && seen[b] ==> exists i :: 0 <= i < index && t[i] == b
    {
      var block := t[index];
      if block < 0 || block >= PHYSICAL_BLOCKS || seen[block] { return false; }
      seen[block] := true;
      index := index + 1;
    }
    ok := true;
  }

  /** The checks of one row's arguments. */
  method CheckRow(e: EpochInput, request: nat) returns (status: int)
    requires request < BATCH
    ensures status == RowStatus(e, request)
  {
    var x := e.rows[request];
    if (x.active != 0 && x.active != 1) || x.token < 0 || x.token >= VOCAB_SIZE || x.position < 0 || x.position >= LOGICAL_CAPACITY {
      return INVALID_METADATA;
    }
    if x.active == 1 {
      if x.generation <= 0 { return INVALID_METADATA; }
      if x.length != x.position + 1 { return INVALID_METADATA; }
      if x.position + e.maxSteps > LOGICAL_CAPACITY { return CAPACITY_EXCEEDED; }
    } else if x.length == 0 {
      if x.generation != 0 { return INVALID_METADATA; }
    } else if x.length != x.position + 1 {
      return INVALID_METADATA;
    }
    if ComputeSlot(e.table, request, x.position) != x.slot { return SLOT_MISMATCH; }
    status := OK;
  }

  method CheckInput(e: EpochInput) returns (status: int)
    ensures status == InputStatus(e)
  {
    if e.maxSteps < 1 || e.maxSteps > MAX_EPOCH_STEPS || e.sampling != 0 || e.graph != 0 {
      if e.sampling != 0 { return UNSUPPORTED_SAMPLING; }
      if e.graph != 0 { return UNSUPPORTED_GRAPH; }
      return INVALID_METADATA;
    }
    for request := 0 to BATCH
      invariant forall r: nat | r < request :: 0 <= e.rows[r].eos < VOCAB_SIZE
    {
      if e.rows[request].eos < 0 || e.rows[request].eos >= VOCAB_SIZE { return INVALID_METADATA; }
    }
    var tableOk := CheckTable(e.table);
    if !tableOk { return INVALID_BLOCK_TABLE; }
    for request := 0 to BATCH
      invariant RowsStatus(e, 0) == RowsStatus(e, request)
    {
      status := CheckRow(e, request);
      if status != OK { return; }
    }
    status := OK;
  }

  // ----- the caches

  /** Write zero blocks over one row. */
  method ClearCacheRow(cache: array<Block>, row: nat)
    requires cache.Length == CACHE_BLOCKS && row < BATCH
    modifies cache
    ensures forall i: nat | i < CACHE_BLOCKS :: cache[i] == if OwnerRow(i) == row then ZeroBlock() else old(cache[i])
  {
    var layer := 0;
    while layer < LAYERS
      invariant 0 <= layer <= LAYERS
      invariant forall i: nat | i < CACHE_BLOCKS ::
                  cache[i] == if OwnerRow(i) == row && i < layer * PHYSICAL_BLOCKS then ZeroBlock() else old(cache[i])
    {
      var block := layer * PHYSICAL_BLOCKS + row * BLOCKS_PER_REQUEST;
      cache[block] := ZeroBlock();
      cache[block + 1] := ZeroBlock();
      layer := layer + 1;
    }
  }

  predicate Cleared(flags: seq<bool>, n: nat, i: nat)
    requires |flags| == BATCH
  {
    OwnerRow(i) < n && flags[OwnerRow(i)]
  }

  /** Clear the flagged rows of both caches. */
  method ClearRows(key: array<Block>, value: array<Block>, flags: seq<bool>)
    requires key != value && key.Length == value.Length == CACHE_BLOCKS && |flags| == BATCH
    modifies key, value
    ensures forall i: nat | i < CACHE_BLOCKS :: key[i] == if flags[OwnerRow(i)] then ZeroBlock() else old(key[i])
    ensures forall i: nat | i < CACHE_BLOCKS :: value[i] == if flags[OwnerRow(i)] then ZeroBlock() else old(value[i])
  {
    for request := 0 to BATCH
      invariant forall i: nat | i < CACHE_BLOCKS :: key[i] == if Cleared(flags, request, i) then ZeroBlock() else old(key[i])
      invariant forall i: nat | i < CACHE_BLOCKS :: value[i] == if Cleared(flags, request, i) then ZeroBlock() else old(value[i])
    {
      if !flags[request] { continue; }
      ClearCacheRow(key, request);
      ClearCacheRow(value, request);
    }
  }

  lemma ClearedByFlags(c: Cache, c': Cache, d: Device, e: EpochInput, flags: seq<bool>)
    requires |flags| == BATCH && forall r: nat | r < BATCH :: flags[r] == NewLease(d.rows[r], e.rows[r])
    requires forall i: nat | i < CACHE_BLOCKS :: c'[i] == if flags[OwnerRow(i)] then ZeroBlock() else c[i]
    ensures c' == ClearedCache(c, d, e)
  {
  }

  /** The first block of a row in a layer is one entry. */
  lemma FirstEntry(layer: nat, row: nat, i: nat)
    requires layer < LAYERS && row < BATCH && i < CACHE_BLOCKS
    ensures (OwnerRow(i) == row && i % 2 == 0 && i / PHYSICAL_BLOCKS == layer) <==> i == layer * PHYSICAL_BLOCKS + row * BLOCKS_PER_REQUEST
  {
  }

  /** Copy one row's payload blocks over its first blocks. */
  method CopyPayloadRow(cache: array<Block>, p: seq<Byte>, base: nat, row: nat)
    requires cache.Length == CACHE_BLOCKS && |p| == PAYLOAD_BYTES && row < BATCH && base <= HALF_BLOCKS
    modifies cache
    ensures forall i: nat | i < CACHE_BLOCKS ::
              cache[i] == if OwnerRow(i) == row && i % 2 == 0 then PayloadBlock(p, base + i / PHYSICAL_BLOCKS * BATCH + row)
                          else old(cache[i])
  {
    var layer := 0;
    while layer < LAYERS
      invariant 0 <= layer <= LAYERS
      invariant forall i: nat | i < CACHE_BLOCKS ::
                  cache[i] == if OwnerRow(i) == row && i % 2 == 0 && i / PHYSICAL_BLOCKS < layer
                              then PayloadBlock(p, base + i / PHYSICAL_BLOCKS * BATCH + row)
                              else old(cache[i])
    {
      forall i: nat | i < CACHE_BLOCKS
        ensures (OwnerRow(i) == row && i % 2 == 0 && i / PHYSICAL_BLOCKS == layer) <==> i == layer * PHYSICAL_BLOCKS + row * BLOCKS_PER_REQUEST
      {
        FirstEntry(layer, row, i);
      }
      var destination := layer * PHYSICAL_BLOCKS + row * BLOCKS_PER_REQUEST;
      cache[destination] := PayloadBlock(p, base + layer * BATCH + row);
      layer := layer + 1;
    }
  }

  lemma FirstBlockAt(c: Cache, layer: nat, request: nat)
    requires layer < LAYERS && request < BATCH
    ensures FirstBlocks(c)[layer * BATCH + request] == c[layer * PHYSICAL_BLOCKS + request * BLOCKS_PER_REQUEST]
  {
    var n := layer * BATCH + request;
    assert n / BATCH == layer && n % BATCH == request;
  }

  /** Continue the import checksum over one layer: the first blocks of the selected rows. */
  method ChecksumLayer(cache: array<Block>, layer: nat, mask: int, first0: U32, second0: U32, ghost blocks: seq<Block>, ghost start: Sums)
    returns (first: U32, second: U32)
    requires cache.Length == CACHE_BLOCKS && layer < LAYERS && |blocks| == HALF_BLOCKS && start.Reduced()
    requires forall r: nat | r < BATCH ::
               blocks[layer * BATCH + r] == cache[layer * PHYSICAL_BLOCKS + r * BLOCKS_PER_REQUEST]
    requires Sums(first0 as nat, second0 as nat) == BlocksSum(blocks, layer * BATCH, mask, start)
    ensures Sums(first as nat, second as nat) == BlocksSum(blocks, (layer + 1) * BATCH, mask, start)
  {
    first, second := first0, second0;
    var request := 0;
    while request < BATCH
      invariant 0 <= request <= BATCH
      invariant Sums(first as nat, second as nat) == BlocksSum(blocks, layer * BATCH + request, mask, start)
    {
      BlocksSumStep(blocks, layer * BATCH, request, mask, start);
      if Bit(mask, request) {
        first, second := Adler32Update(cache[layer * PHYSICAL_BLOCKS + request * BLOCKS_PER_REQUEST], first, second);
      }
      request := request + 1;
    }
  }

  /** Continue the import checksum over one cache, layer by layer. */
  method ChecksumCache(cache: array<Block>, mask: int, first0: U32, second0: U32) returns (first: U32, second: U32)
    requires cache.Length == CACHE_BLOCKS && Sums(first0 as nat, second0 as nat).Reduced()
    ensures Sums(first as nat, second as nat) == BlocksSum(FirstBlocks(cache[..]), HALF_BLOCKS, mask, Sums(first0 as nat, second0 as nat))
  {
    ghost var start := Sums(first0 as nat, second0 as nat);
    ghost var blocks := FirstBlocks(cache[..]);
    first, second := first0, second0;
    var layer := 0;
    while layer < LAYERS
      invariant 0 <= layer <= LAYERS
      invariant Sums(first as nat, second as nat) == BlocksSum(blocks, layer * BATCH, mask, start)
    {
      forall r: nat | r < BATCH
        ensures blocks[layer * BATCH + r] == cache[layer * PHYSICAL_BLOCKS + r * BLOCKS_PER_REQUEST]
      {
        FirstBlockAt(cache[..], layer, r);
      }
      first, second := ChecksumLayer(cache, layer, mask, first, second, blocks, start);
      layer := layer + 1;
    }
  }

  /** The five control words of row `r`. */
  ghost predicate RowWritten(c: array<int>, x: RowInput, lane: Lane, r: nat)
    requires c.Length == CONTROL_OUTPUTS && r < BATCH
    reads c
  {
    && c[6 + r] == x.eos && c[10 + r] == x.active && c[14 + r] == |lane.made| && c[18 + r] == lane.reason
    && c[24 + r] == Echo(x)
  }

  ghost predicate HeaderWritten(c: array<int>, e: EpochInput, end: Ending)
    requires c.Length == CONTROL_OUTPUTS
    reads c
  {
    var x, t := e.rows, end.l.lanes;
    && c[0] == e.maxSteps && c[1] == e.sampling && c[2] == e.graph && c[3] == end.status && c[4] == end.l.calls
    && c[5] == (if e.importing then ToInt32(end.checksum) else if end.status == OK then 0 else 1)
    && c[22] == CountActive([x[0].active, x[1].active, x[2].active, x[3].active])
    && c[23] == CountActive([t[0].active, t[1].active, t[2].active, t[3].active])
  }

  /** These words are all of the control output. */
  lemma ControlWords(c: array<int>, e: EpochInput, end: Ending)
    requires c.Length == CONTROL_OUTPUTS && HeaderWritten(c, e, end)
    requires forall r: nat | r < BATCH :: RowWritten(c, e.rows[r], end.l.lanes[r], r)
    ensures c[..] == Control(e, end)
  {
    assert RowWritten(c, e.rows[0], end.l.lanes[0], 0) && RowWritten(c, e.rows[1], end.l.lanes[1], 1);
    assert RowWritten(c, e.rows[2], end.l.lanes[2], 2) && RowWritten(c, e.rows[3], end.l.lanes[3], 3);
  }

  method WriteRow(control: array<int>, x: RowInput, lane: Lane, r: nat)
    requires control.Length == CONTROL_OUTPUTS && r < BATCH
    modifies control
    ensures RowWritten(control, x, lane, r)
    ensures forall i: nat | i < CONTROL_OUTPUTS && !(6 <= i < 22 && (i - 6) % BATCH == r) && i != 24 + r ::
              control[i] == old(control[i])
  {
    control[6 + r] := x.eos;
    control[10 + r] := x.active;
    control[14 + r] := |lane.made|;
    control[18 + r] := lane.reason;
    control[24 + r] := Echo(x);
  }

  method WriteHeader(control: array<int>, e: EpochInput, end: Ending)
    requires control.Length == CONTROL_OUTPUTS
    modifies control
    ensures HeaderWritten(control, e, end)
  {
    control[0], control[1], control[2] := e.maxSteps, e.sampling, e.graph;
    control[3], control[4] := end.status, end.l.calls;
    control[5] := if e.importing then ToInt32(end.checksum) else if end.status == OK then 0 else 1;
    control[22] := CountActive([e.rows[0].active, e.rows[1].active, e.rows[2].active, e.rows[3].active]);
    control[23] := CountActive([end.l.lanes[0].active, end.l.lanes[1].active, end.l.lanes[2].active, end.l.lanes[3].active]);
  }

  /** Write the control output. */
  method EmitControl(e: EpochInput, end: Ending) returns (control: array<int>)
    ensures fresh(control) && control[..] == Control(e, end)
  {
    control := new int[CONTROL_OUTPUTS](_ => 0);
    WriteHeader(control, e, end);
    for request := 0 to BATCH
      invariant HeaderWritten(control, e, end)
      invariant forall r: nat | r < request :: RowWritten(control, e.rows[r], end.l.lanes[r], r)
    {
      label Before:
      WriteRow(control, e.rows[request], end.l.lanes[request], request);
      forall r: nat | r < request
        ensures RowWritten(control, e.rows[r], end.l.lanes[r], r)
      {
        assert old@Before(RowWritten(control, e.rows[r], end.l.lanes[r], r));
      }
    }
    ControlWords(control, e, end);
  }

  // ----- the controller

  class ResidentEpoch {
    var key: array?<Block>
    var value: array?<Block>
    const generation: array<int>
    const token: array<int>
    const position: array<int>
    const length: array<int>
    const valid: array<int>

    ghost predicate Valid()
      reads this
    {
      && generation.Length == token.Length == position.Length == length.Length == valid.Length == BATCH
      && generation != token && generation != position && generation != length && generation != valid
      && token != position && token != length && token != valid
      && position != length && position != valid && length != valid
      && (key == null <==> value == null)
      && (key != null ==> key.Length == value.Length == CACHE_BLOCKS && key != value)
    }

    function MetaAt(r: nat): Meta
      requires Valid() && r < BATCH
      reads this, generation, token, position, length, valid
    {
      Meta(generation[r], token[r], position[r], length[r], valid[r])
    }

    /** The resident state. */
    function State(): Device
      requires Valid()
      reads this, generation, token, position, length, valid, key, value
    {
      Device(key != null, if key == null then ZeroCache() else key[..], if key == null then ZeroCache() else value[..],
             [MetaAt(0), MetaAt(1), MetaAt(2), MetaAt(3)])
    }

    /** `Init`. */
    constructor ()
      ensures Valid() && State() == Initial()
      ensures fresh(generation) && fresh(token) && fresh(position) && fresh(length) && fresh(valid)
    {
      key, value := null, null;
      generation := new int[BATCH](_ => 0);
      token := new int[BATCH](_ => 0);
      position := new int[BATCH](_ => 0);
      length := new int[BATCH](_ => 0);
      valid := new int[BATCH](_ => 0);
    }

    /** Allocate the resident caches and clear them. */
    method Allocate()
      requires Valid()
      modifies this`key, this`value
      ensures Valid() && key != null && State() == old(State()).(ready := true)
      ensures old(key) != null ==> key == old(key) && value == old(value)
      ensures old(key) == null ==> fresh(key) && fresh(value)
    {
      if key == null {
        key := new Block[CACHE_BLOCKS](_ => ZeroBlock());
        value := new Block[CACHE_BLOCKS](_ => ZeroBlock());
        assert key[..] == ZeroCache() && value[..] == ZeroCache();
      }
    }

    method SetRow(r: nat, m: Meta)
      requires Valid() && r < BATCH
      modifies generation, token, position, length, valid
      ensures Valid() && MetaAt(r) == m && forall i: nat | i < BATCH && i != r :: MetaAt(i) == old(MetaAt(i))
      ensures State() == old(State()).(rows := old(State()).rows[r := m])
    {
      generation[r] := m.generation;
      token[r] := m.token;
      position[r] := m.position;
      length[r] := m.length;
      valid[r] := m.valid;
    }

    /** Import one selected row. */
    method ImportOne(e: EpochInput, row: nat)
      requires Valid() && key != null && e.importing && e.Typed() && row < BATCH
      modifies key, value, generation, token, position, length, valid
      ensures Valid() && State() == ImportRow(old(State()), e, row)
    {
      ClearCacheRow(key, row);
      ClearCacheRow(value, row);
      CopyPayloadRow(key, e.payload, 0, row);
      CopyPayloadRow(value, e.payload, HALF_BLOCKS, row);
      assert key[..] == ImportedCache(old(key[..]), e.payload, 0, row);
      assert value[..] == ImportedCache(old(value[..]), e.payload, HALF_BLOCKS, row);
      SetRow(row, ImportedMeta(e.rows[row]));
    }

    /** Import the rows of the mask and return the checksum of what the caches now hold for them. */
    method ImportAll(e: EpochInput) returns (status: int, checksum: nat)
      requires Valid() && key != null && e.Typed()
      modifies key, value, generation, token, position, length, valid
      ensures Valid() && (State(), status) == Import(old(State()), e)
      ensures status == OK ==> checksum == DeviceChecksum(State(), e)
    {
      checksum := 0;
      if !e.importing { return OK, 0; }
      if e.mask <= 0 || e.mask >= 16 { return INVALID_METADATA, 0; }
      for request := 0 to BATCH
        invariant Valid() && ImportRows(old(State()), e, 0) == ImportRows(State(), e, request)
      {
        if !Bit(e.mask, request) { continue; }
        if e.rows[request].active != 1 || e.rows[request].generation <= 0 { return INVALID_METADATA, 0; }
        ImportOne(e, request);
      }
      status := OK;
      var first, second := ChecksumCache(key, e.mask, 1, 0);
      BlocksSumConcat(FirstBlocks(key[..]), FirstBlocks(value[..]), HALF_BLOCKS, e.mask, START);
      first, second := ChecksumCache(value, e.mask, first, second);
      checksum := second as nat * 65536 + first as nat;
    }

    /** The continuity check. */
    method CheckContinuity(e: EpochInput) returns (ok: bool, isNew: seq<bool>)
      requires Valid()
      ensures ok == Continuity(State(), e)
      ensures ok ==> |isNew| == BATCH && forall r: nat | r < BATCH :: isNew[r] == NewLease(State().rows[r], e.rows[r])
    {
      isNew := [];
      for request := 0 to BATCH
        invariant |isNew| == request
        invariant forall r: nat | r < request ::
                    Continues(State().rows[r], e.rows[r]) && isNew[r] == NewLease(State().rows[r], e.rows[r])
      {
        var x := e.rows[request];
        assert State().rows[request] == MetaAt(request);
        if x.active == 0 { isNew := isNew + [false]; continue; }
        if generation[request] == x.generation {
          if valid[request] == 0 || token[request] != x.token || position[request] != x.position
             || length[request] != x.length
          {
            return false, [];
          }
          isNew := isNew + [false];
        } else {
          if x.position != 0 || x.length != 1 { return false, []; }
          isNew := isNew + [true];
        }
      }
      ok := true;
    }

    /** Clear the rows given a new generation. */
    method ClearFresh(e: EpochInput, isNew: seq<bool>)
      requires Valid() && key != null && |isNew| == BATCH
      requires forall r: nat | r < BATCH :: isNew[r] == NewLease(State().rows[r], e.rows[r])
      modifies key, value
      ensures Valid() && State() == ClearNew(old(State()), e)
    {
      ClearRows(key, value, isNew);
      ClearedByFlags(old(key[..]), key[..], old(State()), e, isNew);
      ClearedByFlags(old(value[..]), value[..], old(State()), e, isNew);
    }

    /** Adopt the caches and the rows of a completed epoch. */
    method CommitAll(e: EpochInput, run: Run, newKey: Cache, newValue: Cache)
      requires Valid() && run.Valid() && key != null
      modifies this`key, this`value, generation, token, position, length, valid
      ensures Valid() && State() == Commit(old(State()), e, run.AsLoop(newKey, newValue))
    {
      key := new Block[CACHE_BLOCKS](i requires 0 <= i < CACHE_BLOCKS => newKey[i]);
      value := new Block[CACHE_BLOCKS](i requires 0 <= i < CACHE_BLOCKS => newValue[i]);
      assert key[..] == newKey && value[..] == newValue;
      for request := 0 to BATCH
        invariant Valid() && key != null && key[..] == newKey && value[..] == newValue
        invariant forall r: nat | r < BATCH ::
                    MetaAt(r) == if r < request then CommitRow(old(MetaAt(r)), e.rows[r], run.LaneAt(r)) else old(MetaAt(r))
      {
        if e.rows[request].active == 0 { continue; }
        SetRow(request, Meta(e.rows[request].generation, run.token[request], run.position[request], run.length[request], 1));
      }
    }

    /** Validation, import and continuity; `isNew` flags the new leases when the call is admitted. */
    method AdmitCall(e: EpochInput) returns (status: int, checksum: nat, isNew: seq<bool>)
      requires Valid() && key != null && e.Typed()
      modifies key, value, generation, token, position, length, valid
      ensures Valid() && (State(), status, checksum) == Admit(old(State()), e)
      ensures status == OK ==> |isNew| == BATCH && forall r: nat | r < BATCH :: isNew[r] == NewLease(State().rows[r], e.rows[r])
    {
      isNew := [];
      status := CheckInput(e);
      if status != OK { return status, 0, []; }
      status, checksum := ImportAll(e);
      if status != OK { return status, 0, []; }
      var ok;
      ok, isNew := CheckContinuity(e);
      if !ok { status := RESIDENT_CONTINUITY; }
    }

    /** The decode loop on the admitted state, and its commit. */
    method RunAdmitted(e: EpochInput, ctx: Context, isNew: seq<bool>, checksum: nat) returns (end: Ending, history: History)
      requires Valid() && key != null && e.maxSteps <= MAX_EPOCH_STEPS && |isNew| == BATCH
      requires forall r: nat | r < BATCH :: isNew[r] == NewLease(State().rows[r], e.rows[r])
      modifies this`key, this`value, key, value, generation, token, position, length, valid
      ensures Valid() && (State(), end) == Decoded(old(State()), e, ctx, checksum)
      ensures history == HistoryOf(end.l.lanes)
    {
      ClearFresh(e, isNew);
      var run := new Run(e);
      var status, newKey, newValue := run.DecodeAll(e, ctx, key[..], value[..]);
      history := run.history;
      run.HistoryIsLanes();
      if status != OK {
        end := Fallback(State(), e, status, checksum, run.calls, run.AllLanes());
        FallbackHistory(State(), e, status, checksum, run.calls, run.AllLanes());
        return;
      }
      CommitAll(e, run, newKey, newValue);
      end := Ending(OK, checksum, Finished(e, run.AsLoop(newKey, newValue)));
      FinishedHistory(e, run.AsLoop(newKey, newValue));
    }

    /** Everything after the tensor ABI checks; also returns the token history. */
    method RunEpoch(e: EpochInput, ctx: Context) returns (end: Ending, history: History)
      requires Valid() && key != null && e.Typed()
      modifies this`key, this`value, key, value, generation, token, position, length, valid
      ensures Valid() && (State(), end) == Epoch(old(State()), e, ctx)
      ensures history == HistoryOf(end.l.lanes)
    {
      var status, checksum, isNew := AdmitCall(e);
      if status != OK {
        end, history := Early(State(), e, status, checksum), NoHistory();
        EarlyHistory(State(), e, status, checksum);
        return;
      }
      end, history := RunAdmitted(e, ctx, isNew, checksum);
    }

    /** One call: eight messages in, the token history and the control output back. */
    method Proc(inputs: seq<Tensor>, ctx: Context) returns (reply: Reply)
      requires Valid()
      modifies this`key, this`value, key, value, generation, token, position, length, valid
      ensures Valid() && (State(), reply) == EpochSpec.Proc(old(State()), inputs, ctx)
    {
      var decoded := Decode(inputs, ctx);
      if decoded.None? { return Failed; }
      if key == null && !ctx.cachesAllocated { return Failed; }
      Allocate();
      var end, history := RunEpoch(decoded.value, ctx);
      var control := EmitControl(decoded.value, end);
      reply := Emitted(history, control[..]);
    }
  }

  lemma FallbackHistory(d: Device, e: EpochInput, status: int, checksum: nat, calls: nat, lanes: Lanes)
    ensures HistoryOf(Fallback(d, e, status, checksum, calls, lanes).l.lanes) == HistoryOf(lanes)
  {
  }

  lemma EarlyHistory(d: Device, e: EpochInput, status: int, checksum: nat)
    ensures HistoryOf(Early(d, e, status, checksum).l.lanes) == NoHistory()
  {
  }

  lemma FinishedHistory(e: EpochInput, l: Loop)
    ensures HistoryOf(Finished(e, l).lanes) == HistoryOf(l.lanes)
  {
  }
}
