/** The device transfer end to end: capture, acceptance by the bridge, the copies it makes, and why the payload is
    the one the snapshot would have had. */
module DeviceImport {
  import opened Layout
  import opened Contract
  import opened EpochSpec
  import opened KvTransfer
  import opened DeviceIpc

  // ----- capture

  /** Export each allocation once; a tensor's key is its allocation's. */
  method ExportKeys(pointers: seq<nat>, keyOf: nat -> Option<seq<int>>) returns (keys: Option<seq<seq<int>>>)
    ensures keys.None? <==> exists p :: p in pointers && keyOf(p).None?
    ensures keys.Some? ==> |keys.value| == |pointers|
    ensures keys.Some? ==> forall i :: 0 <= i < |pointers| ==> keyOf(pointers[i]) == Some(keys.value[i])
  {
    var exported: map<nat, seq<int>> := map[];
    var found: seq<seq<int>> := [];
    for i := 0 to |pointers|
      invariant |found| == i
      invariant forall p :: p in exported ==> keyOf(p) == Some(exported[p])
      invariant forall k :: 0 <= k < i ==> keyOf(pointers[k]) == Some(found[k])
    {
      var p := pointers[i];
      if p !in exported {
        var key := keyOf(p);
        if key.None? { return None; }
        exported := exported[p := key.value];
      }
      found := found + [exported[p]];
    }
    keys := Some(found);
  }

  /** The metadata a plan and the exported caches give. */
  function TransferOf(s: Stock, p: Plan, id: int): DeviceTransfer {
    var requests := Imports(p.requests);
    DeviceTransfer(id, SumMask(requests), Generations(requests), BlockIds(requests), s.sourceBytes, s.offsets, s.keys)
  }

  predicate OneBlockEach(requests: seq<PlanRequest>) { forall q | q in requests :: |q.blocks| == 1 }

  /** `capture_kv_device_transfer` after the exports. */
  method CaptureTransfer(s: Stock, p: Plan, id: int) returns (t: Option<DeviceTransfer>)
    requires ValidPlan(p) && p.graphBatch == BATCH
    ensures t.Some? <==> Imports(p.requests) != [] && OneBlockEach(Imports(p.requests)) && ValidTransfer(TransferOf(s, p, id))
    ensures t.Some? ==> t.value == TransferOf(s, p, id)
  {
    var requests := Imports(p.requests);
    ImportsDistinct(p.requests);
    if requests == [] { return None; }
    var blockIds, generations, mask := [0, 0, 0, 0], [0, 0, 0, 0], 0;
    for n := 0 to |requests|
      invariant blockIds == BlockIds(requests[..n]) && generations == Generations(requests[..n])
      invariant mask == SumMask(requests[..n])
      invariant OneBlockEach(requests[..n])
    {
      var q := requests[n];
      if |q.blocks| != 1 { assert q in requests; return None; }
      assert q in p.requests && ValidRequest(p, q);
      MaskFree(requests, n);
      assert requests[..n + 1][..n] == requests[..n];
      blockIds := blockIds[q.row := q.blocks[0]];
      generations := generations[q.row := q.generation];
      mask := SetBit(mask, q.row);
    }
    assert requests[..|requests|] == requests;
    var captured := DeviceTransfer(id, mask, generations, blockIds, s.sourceBytes, s.offsets, s.keys);
    t := if ValidTransfer(captured) then Some(captured) else None;
  }

  /** The bit of the next request's row is not set yet. */
  lemma MaskFree(requests: seq<PlanRequest>, n: nat)
    requires n < |requests| && DistinctRows(requests) && forall q | q in requests :: 0 <= q.row < BATCH
    ensures !Bit(SumMask(requests[..n]), requests[n].row)
  {
    assert requests[n] in requests;
    forall q | q in requests[..n]
      ensures 0 <= q.row < BATCH
    {
      assert q in requests;
    }
    SumMaskBits(requests[..n]);
    assert !HasRow(requests[..n], requests[n].row);
  }

  // ----- acceptance

  /** `strnlen` */
  function KeyLength(key: seq<Byte>): (n: nat)
    ensures n <= |key| && (n < |key| ==> key[n] == 0)
    ensures forall i :: 0 <= i < n ==> key[i] != 0
  {
    if key == [] || key[0] == 0 then 0 else 1 + KeyLength(key[1..])
  }

  function CString(key: seq<Byte>): seq<Byte> { key[..KeyLength(key)] }

  predicate KeyAccepted(key: seq<Byte>) {
    var n := KeyLength(key);
    n > 0 && forall i :: n < i < |key| ==> key[i] == 0
  }

  predicate RowAccepted(m: Metadata, generations: seq<int>, row: nat)
    requires row < BATCH && |m.generations| == BATCH && |m.blockIds| == BATCH && |generations| == BATCH
  {
    if Bit(m.mask, row) then m.generations[row] > 0 && m.generations[row] == generations[row]
    else m.generations[row] == 0 && m.blockIds[row] == 0
  }

  predicate SourceAccepted(m: Metadata, source: nat, row: nat)
    requires row < BATCH && |m.blockIds| == BATCH && source < |m.offsets|
  {
    Bit(m.mask, row) ==>
      m.offsets[source] <= m.sourceBytes && (m.blockIds[row] + 1) * BLOCK_BYTES <= m.sourceBytes - m.offsets[source]
  }

  predicate Sized(m: Metadata) {
    |m.generations| == BATCH && |m.blockIds| == BATCH && |m.offsets| == SOURCES && |m.keys| == SOURCES
  }

  /** `ValidateIpcMetadata` */
  predicate MetadataAccepted(m: Metadata, generations: seq<int>)
    requires Sized(m) && |generations| == BATCH
  {
    && m.magic == MAGIC && m.version == VERSION && m.sourceBytes != 0 && 0 < m.mask < 16
    && (forall row: nat | row < BATCH :: RowAccepted(m, generations, row))
    && (forall source: nat, row: nat | source < SOURCES && row < BATCH :: SourceAccepted(m, source, row))
    && (forall key | key in m.keys :: KeyAccepted(key))
  }

  /** The allocation holds at least the eight blocks of a resident cache. */
  predicate LargeEnough(m: Metadata) { m.sourceBytes >= PHYSICAL_BLOCKS * BLOCK_BYTES }

  /** The key has a first character, and after a NUL there are only NULs. */
  predicate Trimmed(key: seq<int>) {
    key != [] && key[0] != 0 && forall i, j :: 0 <= i < j < |key| && key[i] == 0 ==> key[j] == 0
  }

  lemma PaddedAccepted(key: seq<int>)
    requires KeyFits(key)
    ensures KeyAccepted(Padded(key)) <==> Trimmed(key)
    ensures 0 !in key ==> CString(Padded(key)) == key
  {
    var b := Padded(key);
    var n := KeyLength(b);
    assert forall i :: 0 <= i < |key| ==> b[i] == key[i];
    if Trimmed(key) {
      forall i | n < i < |b|
        ensures b[i] == 0
      {
        if i < |key| { assert key[n] == b[n] == 0; }
      }
    }
    if KeyAccepted(b) {
      forall i, j | 0 <= i < j < |key| && key[i] == 0
        ensures key[j] == 0
      {
        assert b[i] == 0 && b[j] == key[j];
      }
    }
    if 0 !in key {
      assert forall i :: 0 <= i < |key| ==> key[i] in key;
      assert |key| < |b| ==> b[|key|] == 0;
      assert n == |key|;
    }
  }

  /** The plan's generations at the rows the transfer selects. */
  predicate Matches(t: DeviceTransfer, generations: seq<int>)
    requires |t.generations| == BATCH && |generations| == BATCH
  {
    forall row: nat | row < BATCH && Bit(t.mask, row) :: t.generations[row] == generations[row]
  }

  lemma RowsAccepted(t: DeviceTransfer, m: Metadata, generations: seq<int>)
    requires ValidTransfer(t) && |generations| == BATCH && Sized(m)
    requires m.mask == t.mask && m.generations == t.generations && m.blockIds == t.blockIds
    ensures (forall row: nat | row < BATCH :: RowAccepted(m, generations, row)) <==> Matches(t, generations)
  {
    forall row: nat | row < BATCH
      ensures RowAccepted(m, generations, row) <==> (Bit(t.mask, row) ==> t.generations[row] == generations[row])
    {
      assert RowCovered(t, row);
    }
  }

  lemma SourcesAccepted(t: DeviceTransfer, m: Metadata, source: nat, row: nat)
    requires ValidTransfer(t) && Sized(m) && source < SOURCES && row < BATCH
    requires m.mask == t.mask && m.blockIds == t.blockIds && m.offsets == t.offsets && m.sourceBytes == t.sourceBytes
    ensures SourceAccepted(m, source, row)
  {
    assert RowCovered(t, row) && t.offsets[source] in t.offsets;
  }

  lemma KeysAccepted(t: DeviceTransfer)
    requires ValidTransfer(t)
    ensures (forall key | key in PaddedKeys(t) :: KeyAccepted(key)) <==> (forall key | key in t.keys :: Trimmed(key))
  {
    var padded := PaddedKeys(t);
    forall i | 0 <= i < SOURCES
      ensures padded[i] == Padded(t.keys[i]) && (KeyAccepted(padded[i]) <==> Trimmed(t.keys[i]))
      ensures padded[i] in padded && t.keys[i] in t.keys
    {
      assert t.keys[i] in t.keys;
      PaddedAccepted(t.keys[i]);
    }
    if forall key | key in padded :: KeyAccepted(key) {
      forall key | key in t.keys
        ensures Trimmed(key)
      {
        var i :| 0 <= i < SOURCES && t.keys[i] == key;
        assert KeyAccepted(padded[i]);
      }
    }
  }

  /** A transfer the host has validated gets through the bridge exactly when its generations are the plan's, its
      allocations hold eight blocks, and its keys have no NUL before another character. */
  lemma BridgeAccepts(t: DeviceTransfer, generations: seq<int>)
    requires ValidTransfer(t) && Packable(t) && |generations| == BATCH
    ensures |WireBytes(t).value| == WIRE_BYTES
    ensures var m := Received(WireBytes(t).value);
            (MetadataAccepted(m, generations) && LargeEnough(m)) <==>
            (Matches(t, generations) && t.sourceBytes >= PHYSICAL_BLOCKS * BLOCK_BYTES && forall key | key in t.keys :: Trimmed(key))
  {
    WireRoundTrip(t);
    var m := Received(WireBytes(t).value);
    RowsAccepted(t, m, generations);
    forall source: nat, row: nat | source < SOURCES && row < BATCH
      ensures SourceAccepted(m, source, row)
    {
      SourcesAccepted(t, m, source, row);
    }
    KeysAccepted(t);
  }

  /** One block of one allocation is a valid transfer the bridge refuses. */
  lemma SmallAllocationRefused()
    ensures var t := DeviceTransfer(1, 1, [1, 0, 0, 0], [0, 0, 0, 0], BLOCK_BYTES, seq(SOURCES, _ => 0), seq(SOURCES, _ => [107]));
            && ValidTransfer(t) && Packable(t) && |WireBytes(t).value| == WIRE_BYTES
            && MetadataAccepted(Received(WireBytes(t).value), [1, 0, 0, 0])
            && !LargeEnough(Received(WireBytes(t).value))
  {
    var t := DeviceTransfer(1, 1, [1, 0, 0, 0], [0, 0, 0, 0], BLOCK_BYTES, seq(SOURCES, _ => 0), seq(SOURCES, _ => [107]));
    assert forall row: nat | row < BATCH :: RowCovered(t, row);
    assert ValidTransfer(t) && Packable(t);
    forall key | key in t.keys
      ensures Trimmed(key)
    {
      assert key == [107];
    }
    WireRoundTrip(t);
    var m := Received(WireBytes(t).value);
    RowsAccepted(t, m, [1, 0, 0, 0]);
    forall source: nat, row: nat | source < SOURCES && row < BATCH
      ensures SourceAccepted(m, source, row)
    {
      SourcesAccepted(t, m, source, row);
    }
    KeysAccepted(t);
  }

  // ----- the copies

  /** What the bridge's driver maps under a name: an allocation, or nothing. */
  type Ipc = seq<Byte> -> Option<nat>

  /** Every key maps to an allocation of the announced size, or to nothing. */
  ghost predicate Mapped(m: Metadata, ipc: Ipc, memory: Memory)
    requires Sized(m)
  {
    forall i: nat | i < SOURCES && ipc(CString(m.keys[i])).Some? :: |memory(ipc(CString(m.keys[i])).value)| == m.sourceBytes
  }

  /** All the keys can be imported. */
  predicate AllMap(m: Metadata, ipc: Ipc)
    requires Sized(m)
  {
    forall i: nat | i < SOURCES :: ipc(CString(m.keys[i])).Some?
  }

  /** Every copy of an accepted transfer stays inside its allocation and inside the payload. */
  lemma CopyInBounds(m: Metadata, generations: seq<int>, i: nat)
    requires Sized(m) && |generations| == BATCH && MetadataAccepted(m, generations) && i < 2 * HALF_BLOCKS && Bit(m.mask, i % BATCH)
    ensures m.offsets[SourceOf(i)] + (m.blockIds[i % BATCH] + 1) * BLOCK_BYTES <= m.sourceBytes
    ensures (i + 1) * BLOCK_BYTES <= PAYLOAD_BYTES
  {
    assert SourceAccepted(m, SourceOf(i), i % BATCH);
  }

  /** Block `i` of the assembled payload. */
  function Copied(m: Metadata, ipc: Ipc, memory: Memory, i: nat): Block
    requires Sized(m) && i < 2 * HALF_BLOCKS
  {
    var source, row := SourceOf(i), i % BATCH;
    var from := ipc(CString(m.keys[source]));
    if Bit(m.mask, row) && from.Some? && m.offsets[source] + (m.blockIds[row] + 1) * BLOCK_BYTES <= |memory(from.value)|
    then BlockAt(memory(from.value), m.offsets[source], m.blockIds[row])
    else ZeroBlock()
  }

  /** One half of the payload when its first `n` rows have been copied. */
  ghost predicate HalfCopied(m: Metadata, ipc: Ipc, memory: Memory, base: nat, n: nat, half: seq<Block>)
    requires Sized(m) && base <= HALF_BLOCKS
  {
    && |half| == HALF_BLOCKS
    && forall i: nat | i < HALF_BLOCKS :: half[i] == if i < n then Copied(m, ipc, memory, base + i) else ZeroBlock()
  }

  ghost predicate CopiedUpTo(m: Metadata, ipc: Ipc, memory: Memory, n: nat, payload: seq<Block>)
    requires Sized(m)
  {
    && |payload| == 2 * HALF_BLOCKS
    && HalfCopied(m, ipc, memory, 0, n, payload[..HALF_BLOCKS])
    && HalfCopied(m, ipc, memory, HALF_BLOCKS, n, payload[HALF_BLOCKS..])
  }

  /** A key and a value block written at row `n` of the halves. */
  function Written(payload: seq<Block>, n: nat, key: Block, value: Block): seq<Block>
    requires |payload| == 2 * HALF_BLOCKS && n < HALF_BLOCKS
  {
    var first: seq<Block> := payload[n := key];
    first[HALF_BLOCKS + n := value]
  }

  lemma CopiedStep(m: Metadata, ipc: Ipc, memory: Memory, n: nat, payload: seq<Block>, key: Block, value: Block)
    requires Sized(m) && n < HALF_BLOCKS && CopiedUpTo(m, ipc, memory, n, payload)
    requires key == Copied(m, ipc, memory, n) && value == Copied(m, ipc, memory, HALF_BLOCKS + n)
    ensures CopiedUpTo(m, ipc, memory, n + 1, Written(payload, n, key, value))
  {
    var after := Written(payload, n, key, value);
    assert after[..HALF_BLOCKS] == payload[..HALF_BLOCKS][n := key];
    assert after[HALF_BLOCKS..] == payload[HALF_BLOCKS..][n := value];
  }

  lemma CopiedAll(m: Metadata, ipc: Ipc, memory: Memory, payload: seq<Block>)
    requires Sized(m) && CopiedUpTo(m, ipc, memory, HALF_BLOCKS, payload)
    ensures forall i: nat | i < 2 * HALF_BLOCKS :: payload[i] == Copied(m, ipc, memory, i)
  {
    forall i: nat | i < 2 * HALF_BLOCKS
      ensures payload[i] == Copied(m, ipc, memory, i)
    {
      if i >= HALF_BLOCKS {
        CopiedIn(m, ipc, memory, HALF_BLOCKS, payload[HALF_BLOCKS..], i - HALF_BLOCKS);
      } else {
        CopiedIn(m, ipc, memory, 0, payload[..HALF_BLOCKS], i);
      }
    }
  }

  lemma CopiedIn(m: Metadata, ipc: Ipc, memory: Memory, base: nat, half: seq<Block>, i: nat)
    requires Sized(m) && base <= HALF_BLOCKS && i < HALF_BLOCKS && HalfCopied(m, ipc, memory, base, HALF_BLOCKS, half)
    ensures half[i] == Copied(m, ipc, memory, base + i)
  {
  }

  /** The block copied for a selected row of a layer. */
  lemma CopiedRow(m: Metadata, generations: seq<int>, ipc: Ipc, memory: Memory, i: nat, from: nat)
    requires Sized(m) && |generations| == BATCH && MetadataAccepted(m, generations)
    requires i < 2 * HALF_BLOCKS && Bit(m.mask, i % BATCH) && ipc(CString(m.keys[SourceOf(i)])) == Some(from)
    requires |memory(from)| == m.sourceBytes
    ensures m.offsets[SourceOf(i)] + (m.blockIds[i % BATCH] + 1) * BLOCK_BYTES <= m.sourceBytes
    ensures Copied(m, ipc, memory, i) == BlockAt(memory(from), m.offsets[SourceOf(i)], m.blockIds[i % BATCH])
  {
    CopyInBounds(m, generations, i);
  }

  /** The part of the native engine that imports allocations and holds the assembled payload. */
  class IpcEngine {
    var imports: map<seq<Byte>, nat>
    const payload: array<Block>

    /** The imports remembered are what the driver still maps. */
    ghost predicate Valid(ipc: Ipc)
      reads this
    {
      payload.Length == 2 * HALF_BLOCKS && forall k :: k in imports ==> ipc(k) == Some(imports[k])
    }

    constructor ()
      ensures imports == map[] && payload.Length == 2 * HALF_BLOCKS && fresh(payload)
    {
      imports := map[];
      payload := new Block[2 * HALF_BLOCKS];
    }

    /** `ImportIpcMemory`: import a key once, then remember it. */
    method ImportMemory(ipc: Ipc, key: seq<Byte>) returns (from: Option<nat>)
      requires Valid(ipc)
      modifies this`imports
      ensures Valid(ipc) && from == if KeyLength(key) == 0 then None else ipc(CString(key))
    {
      if KeyLength(key) == 0 { return None; }
      var name := CString(key);
      if name in imports { return Some(imports[name]); }
      from := ipc(name);
      if from.Some? { imports := imports[name := from.value]; }
    }

    /** Copy a selected row of one layer. */
    method CopyRow(m: Metadata, ghost generations: seq<int>, ghost ipc: Ipc, memory: Memory,
                   layer: nat, row: nat, keys: nat, values: nat)
      requires Sized(m) && |generations| == BATCH && MetadataAccepted(m, generations)
      requires layer < LAYERS && row < BATCH && Bit(m.mask, row)
      requires ipc(CString(m.keys[layer * 2])) == Some(keys) && ipc(CString(m.keys[layer * 2 + 1])) == Some(values)
      requires |memory(keys)| == m.sourceBytes == |memory(values)|
      requires CopiedUpTo(m, ipc, memory, layer * BATCH + row, payload[..])
      modifies payload
      ensures CopiedUpTo(m, ipc, memory, layer * BATCH + row + 1, payload[..])
    {
      var at := layer * BATCH + row;
      SourcesAt(layer, row);
      CopiedRow(m, generations, ipc, memory, at, keys);
      CopiedRow(m, generations, ipc, memory, HALF_BLOCKS + at, values);
      ghost var before := payload[..];
      var key: Block := BlockAt(memory(keys), m.offsets[layer * 2], m.blockIds[row]);
      var value: Block := BlockAt(memory(values), m.offsets[layer * 2 + 1], m.blockIds[row]);
      payload[at] := key;
      payload[HALF_BLOCKS + at] := value;
      CopiedStep(m, ipc, memory, at, before, key, value);
      assert payload[..] == Written(before, at, key, value);
    }

    /** An unselected row of one layer stays zero. */
    lemma SkipRow(m: Metadata, ipc: Ipc, memory: Memory, layer: nat, row: nat)
      requires Sized(m) && layer < LAYERS && row < BATCH && !Bit(m.mask, row)
      requires CopiedUpTo(m, ipc, memory, layer * BATCH + row, payload[..])
      ensures CopiedUpTo(m, ipc, memory, layer * BATCH + row + 1, payload[..])
    {
      var at := layer * BATCH + row;
      SourcesAt(layer, row);
      var zero: Block := ZeroBlock();
      CopiedStep(m, ipc, memory, at, payload[..], zero, zero);
      assert payload[..][..HALF_BLOCKS][at] == zero == payload[..][HALF_BLOCKS..][at];
      assert payload[..] == Written(payload[..], at, zero, zero);
    }

    /** Copy the selected rows of one layer. */
    method CopyLayer(m: Metadata, ghost generations: seq<int>, ghost ipc: Ipc, memory: Memory, layer: nat, keys: nat, values: nat)
      requires Sized(m) && |generations| == BATCH && MetadataAccepted(m, generations) && layer < LAYERS
      requires ipc(CString(m.keys[layer * 2])) == Some(keys) && ipc(CString(m.keys[layer * 2 + 1])) == Some(values)
      requires |memory(keys)| == m.sourceBytes == |memory(values)|
      requires CopiedUpTo(m, ipc, memory, layer * BATCH, payload[..])
      modifies payload
      ensures CopiedUpTo(m, ipc, memory, (layer + 1) * BATCH, payload[..])
    {
      for row := 0 to BATCH
        invariant CopiedUpTo(m, ipc, memory, layer * BATCH + row, payload[..])
      {
        if !Bit(m.mask, row) { SkipRow(m, ipc, memory, layer, row); continue; }
        CopyRow(m, generations, ipc, memory, layer, row, keys, values);
      }
    }

    /** `PrepareDeviceIpcPayload` */
    method Prepare(m: Metadata, ghost generations: seq<int>, ipc: Ipc, memory: Memory) returns (ok: bool)
      requires Valid(ipc) && Sized(m) && |generations| == BATCH && MetadataAccepted(m, generations) && Mapped(m, ipc, memory)
      modifies this`imports, payload
      ensures Valid(ipc) && ok == (LargeEnough(m) && AllMap(m, ipc))
      ensures ok ==> forall i: nat | i < 2 * HALF_BLOCKS :: payload[i] == Copied(m, ipc, memory, i)
    {
      if m.sourceBytes < PHYSICAL_BLOCKS * BLOCK_BYTES { return false; }
      forall i | 0 <= i < payload.Length { payload[i] := ZeroBlock(); }
      for layer := 0 to LAYERS
        invariant Valid(ipc) && CopiedUpTo(m, ipc, memory, layer * BATCH, payload[..])
        invariant forall i: nat | i < 2 * layer :: ipc(CString(m.keys[i])).Some?
      {
        assert m.keys[layer * 2] in m.keys && m.keys[layer * 2 + 1] in m.keys;
        var keys := ImportMemory(ipc, m.keys[layer * 2]);
        var values := ImportMemory(ipc, m.keys[layer * 2 + 1]);
        if keys.None? || values.None? { return false; }
        CopyLayer(m, generations, ipc, memory, layer, keys.value, values.value);
      }
      ok := true;
      CopiedAll(m, ipc, memory, payload[..]);
    }
  }

  // ----- both modes

  /** The driver maps each tensor's key to the allocation it was exported from. */
  ghost predicate Faithful(s: Stock, ipc: Ipc) {
    forall i: nat | i < SOURCES && i < |s.keys| && i < |s.pointers| ::
      KeyFits(s.keys[i]) && ipc(CString(Padded(s.keys[i]))) == Some(s.pointers[i])
  }

  /** One payload block is the same in both modes. */
  lemma SameBlock(s: Stock, memory: Memory, p: Plan, m: Metadata, ipc: Ipc, i: nat, a: Block)
    requires Exportable(s, memory) && ValidPlan(p) && p.graphBatch == BATCH && Snapshottable(s, Imports(p.requests)) && Faithful(s, ipc)
    requires Sized(m) && m.mask == SumMask(Imports(p.requests)) && m.blockIds == BlockIds(Imports(p.requests)) && m.offsets == s.offsets
    requires i < 2 * HALF_BLOCKS && m.keys[SourceOf(i)] == Padded(s.keys[SourceOf(i)])
    requires SnapshotBlock(s, memory, Imports(p.requests), i, a)
    ensures a == Copied(m, ipc, memory, i)
  {
    var requests := Imports(p.requests);
    ImportsDistinct(p.requests);
    assert forall q | q in requests :: ValidRequest(p, q);
    SumMaskBits(requests);
    var row := i % BATCH;
    if HasRow(requests, row) {
      var k :| 0 <= k < |requests| && requests[k].row == row;
      assert requests[k] in requests && Usable(s, requests[k]);
      ScatterAt(requests, BlockOf, 0, BATCH);
      assert m.blockIds[row] == requests[k].blocks[0];
      assert Bit(m.mask, row);
    }
  }

  /** For the same plan and stock caches, whenever both modes build a payload the two are byte-identical, and so
      are their masks and generations. */
  lemma ModesAgree(s: Stock, memory: Memory, p: Plan, id: int, snapshot: Snapshot, ipc: Ipc, device: seq<Block>)
    requires Exportable(s, memory) && ValidPlan(p) && p.graphBatch == BATCH && Snapshottable(s, Imports(p.requests)) && Faithful(s, ipc)
    requires snapshot.mask == SumMask(Imports(p.requests)) && snapshot.generations == Generations(Imports(p.requests))
    requires |snapshot.blocks| == 2 * HALF_BLOCKS == |device|
    requires forall i: nat | i < 2 * HALF_BLOCKS :: SnapshotBlock(s, memory, Imports(p.requests), i, snapshot.blocks[i])
    requires var t := TransferOf(s, p, id);
             ValidTransfer(t) && Packable(t) && |WireBytes(t).value| == WIRE_BYTES
    requires var m := Received(WireBytes(TransferOf(s, p, id)).value);
             forall i: nat | i < 2 * HALF_BLOCKS :: device[i] == Copied(m, ipc, memory, i)
    ensures PayloadBytes(snapshot.blocks) == PayloadBytes(device)
    ensures var m := Received(WireBytes(TransferOf(s, p, id)).value);
            m.mask == snapshot.mask && m.generations == snapshot.generations
  {
    var t := TransferOf(s, p, id);
    WireRoundTrip(t);
    var m := Received(WireBytes(t).value);
    forall i: nat | i < 2 * HALF_BLOCKS
      ensures snapshot.blocks[i] == device[i]
    {
      SameBlock(s, memory, p, m, ipc, i, snapshot.blocks[i]);
    }
    assert snapshot.blocks == device;
  }

  /** Wherever the snapshot can be taken, the transfer is valid too. */
  lemma SnapshotImpliesTransfer(s: Stock, memory: Memory, p: Plan, id: int)
    requires Exportable(s, memory) && ValidPlan(p) && p.graphBatch == BATCH
    requires Imports(p.requests) != [] && Snapshottable(s, Imports(p.requests))
    requires id > 0 && forall key | key in s.keys :: KeyFits(key)
    ensures ValidTransfer(TransferOf(s, p, id)) && OneBlockEach(Imports(p.requests))
  {
    var requests, t := Imports(p.requests), TransferOf(s, p, id);
    ImportsDistinct(p.requests);
    assert forall q | q in requests :: ValidRequest(p, q);
    SumMaskBits(requests);
    ScatterAt(requests, BlockOf, 0, BATCH);
    ScatterAt(requests, GenerationOf, 0, BATCH);
    assert Exportable(s, memory) && s.sourceBytes >= s.offsets[0] + s.viewBytes;
    forall row: nat | row < BATCH
      ensures RowCovered(t, row)
    {
      if HasRow(requests, row) {
        var k :| 0 <= k < |requests| && requests[k].row == row;
        assert requests[k] in requests && Usable(s, requests[k]) && ValidRequest(p, requests[k]);
        assert t.blockIds[row] == requests[k].blocks[0];
      }
    }
  }

  /** The transfer checks blocks against the whole allocation, not against the tensor: when the allocation is
      larger it accepts a block the snapshot refuses. */
  lemma TransferBeyondTensor()
    ensures var q := PlanRequest("a", 0, 1, 0, 1, 2, 0, [1], HostOwned, true);
            var p := Plan(CONTRACT_VERSION, BATCH, 1, 8, [q], [1, 0, 0, 0]);
            var s := Stock(seq(SOURCES, _ => 0), seq(SOURCES, _ => 0), seq(SOURCES, _ => [107]), BLOCK_BYTES, 8 * BLOCK_BYTES);
            Imports(p.requests) == [q] && ValidTransfer(TransferOf(s, p, 1)) && !Snapshottable(s, Imports(p.requests))
  {
    var q := PlanRequest("a", 0, 1, 0, 1, 2, 0, [1], HostOwned, true);
    var s := Stock(seq(SOURCES, _ => 0), seq(SOURCES, _ => 0), seq(SOURCES, _ => [107]), BLOCK_BYTES, 8 * BLOCK_BYTES);
    var p := Plan(CONTRACT_VERSION, BATCH, 1, 8, [q], [1, 0, 0, 0]);
    LoneImport(q);
    assert !Usable(s, q);
    var t := TransferOf(s, p, 1);
    assert t == DeviceTransfer(1, 1, [1, 0, 0, 0], [1, 0, 0, 0], s.sourceBytes, s.offsets, s.keys);
    assert forall o | o in t.offsets :: o == 0;
    assert forall key | key in t.keys :: key == [107];
    forall row: nat | row < BATCH
      ensures RowCovered(t, row)
    {
    }
  }

  /** What the captures read from a plan with one import. */
  lemma LoneImport(q: PlanRequest)
    requires q.importRequired && q.row == 0 && q.generation == 1 && q.blocks == [1]
    ensures Imports([q]) == [q] && SumMask([q]) == 1
    ensures Generations([q]) == [1, 0, 0, 0] && BlockIds([q]) == [1, 0, 0, 0]
  {
    LoneSelected(q);
    LoneScatter(q, GenerationOf);
    LoneScatter(q, BlockOf);
  }

  lemma LoneSelected(q: PlanRequest)
    requires q.importRequired && q.row == 0
    ensures Imports([q]) == [q] && SumMask([q]) == 1
  {
    assert [q][..0] == [];
    assert Imports([]) == [] && SumMask([]) == 0;
    assert RowBit(0) == 1;
  }

  lemma LoneScatter(q: PlanRequest, field: PlanRequest -> int)
    requires q.row == 0
    ensures Scatter([q], field, 0, BATCH) == [field(q), 0, 0, 0]
  {
    assert [q][..0] == [];
    assert Scatter([], field, 0, BATCH) == [0, 0, 0, 0];
  }
}
