/** The two ways a host hands a request's KV to the device: a snapshot of the payload, or metadata that lets the
    bridge copy the stock blocks on the device itself. */
module KvTransfer {
  import opened Layout
  import opened Contract
  import opened EpochSpec
  import opened ImportChecksum
  import Wire

  const SOURCES := 56 // a key and a value tensor a layer
  const KEY_BYTES := 64
  const MAGIC := 0x4352554953454950
  const VERSION := 2

  type Memory = nat -> seq<Byte>

  /** The stock caches: tensor `i` (layer `i / 2`, keys before values) is a view into a device allocation. */
  datatype Stock = Stock(
    pointers: seq<nat>, offsets: seq<nat>, keys: seq<seq<int>>, viewBytes: nat, sourceBytes: nat)

  /** Every tensor is a view into its allocation. */
  ghost predicate Viewed(s: Stock, memory: Memory) {
    && |s.pointers| == SOURCES && |s.offsets| == SOURCES
    && forall i: nat | i < SOURCES :: s.offsets[i] + s.viewBytes <= |memory(s.pointers[i])|
  }

  /** What the export checks of every tensor, and that allocations have their declared size. */
  ghost predicate Exportable(s: Stock, memory: Memory) {
    && |s.pointers| == SOURCES && |s.offsets| == SOURCES && |s.keys| == SOURCES && s.viewBytes > 0
    && forall i: nat | i < SOURCES :: s.offsets[i] + s.viewBytes <= s.sourceBytes && |memory(s.pointers[i])| == s.sourceBytes
  }

  /** `size` bytes of block `block` behind `offset`. */
  function BlockAt(bytes: seq<Byte>, offset: nat, block: nat): Block
    requires offset + (block + 1) * BLOCK_BYTES <= |bytes|
  {
    bytes[offset + block * BLOCK_BYTES..offset + (block + 1) * BLOCK_BYTES]
  }

  // ----- what the two captures read from a plan

  function Imports(requests: seq<PlanRequest>): (r: seq<PlanRequest>)
    ensures forall q :: q in r <==> q in requests && q.importRequired
  {
    if requests == [] then []
    else
      var last := requests[|requests| - 1];
      Imports(requests[..|requests| - 1]) + if last.importRequired then [last] else []
  }

  lemma {:induction false} ImportsDistinct(requests: seq<PlanRequest>)
    requires DistinctRows(requests)
    ensures DistinctRows(Imports(requests))
  {
    if requests != [] {
      var n := |requests| - 1;
      ImportsDistinct(requests[..n]);
      var before := Imports(requests[..n]);
      forall i | 0 <= i < |before|
        ensures before[i].row != requests[n].row
      {
        assert before[i] in requests[..n];
        var j :| 0 <= j < n && requests[j] == before[i];
      }
    }
  }

  function RowBit(row: int): nat
  {
    if row == 0 then 1 else if row == 1 then 2 else if row == 2 then 4 else if row == 3 then 8 else 0
  }

  /** `mask | 1 << row` */
  function SetBit(mask: nat, row: int): nat {
    if 0 <= row < BATCH && Bit(mask, row) then mask else mask + RowBit(row)
  }

  /** `sum(1 << row)` */
  function SumMask(requests: seq<PlanRequest>): nat {
    if requests == [] then 0 else SumMask(requests[..|requests| - 1]) + RowBit(requests[|requests| - 1].row)
  }

  predicate HasRow(requests: seq<PlanRequest>, row: int) { exists i :: 0 <= i < |requests| && requests[i].row == row }

  predicate InBatch(requests: seq<PlanRequest>) { forall q | q in requests :: 0 <= q.row < BATCH }

  lemma AddBit(mask: nat, row: nat, r: nat)
    requires mask < 16 && row < BATCH && r < BATCH && !Bit(mask, row)
    ensures mask + RowBit(row) < 16 && (Bit(mask + RowBit(row), r) <==> r == row || Bit(mask, r))
  {
  }

  /** With one request a row the sum is the set of rows, as a mask. */
  lemma {:induction false} SumMaskBits(requests: seq<PlanRequest>)
    requires DistinctRows(requests) && InBatch(requests)
    ensures SumMask(requests) < 16
    ensures forall r: nat | r < BATCH :: Bit(SumMask(requests), r) <==> HasRow(requests, r)
    ensures SumMask(requests) == 0 <==> requests == []
  {
    if requests != [] {
      var n := |requests| - 1;
      var before := requests[..n];
      SumMaskBits(before);
      assert requests[n] in requests;
      var row := requests[n].row;
      assert !HasRow(before, row);
      forall r: nat | r < BATCH
        ensures SumMask(requests) < 16 && (Bit(SumMask(requests), r) <==> HasRow(requests, r))
      {
        AddBit(SumMask(before), row, r);
        assert HasRow(requests, r) <==> r == row || HasRow(before, r) by {
          if HasRow(before, r) {
            var i :| 0 <= i < n && before[i].row == r;
            assert requests[i].row == r;
          }
        }
      }
    }
  }

  predicate WantsImport(requests: seq<PlanRequest>, row: int) { exists q :: q in requests && q.importRequired && q.row == row }

  /** The mask of a plan's imports selects exactly the rows whose requests want one. */
  lemma MaskOfPlan(requests: seq<PlanRequest>)
    requires DistinctRows(requests) && InBatch(requests)
    ensures SumMask(Imports(requests)) < 16 && (SumMask(Imports(requests)) == 0 <==> Imports(requests) == [])
    ensures forall r: nat | r < BATCH :: Bit(SumMask(Imports(requests)), r) <==> WantsImport(requests, r)
  {
    var wanted := Imports(requests);
    ImportsDistinct(requests);
    SumMaskBits(wanted);
    forall r: nat | r < BATCH
      ensures HasRow(wanted, r) <==> WantsImport(requests, r)
    {
      if HasRow(wanted, r) {
        var i :| 0 <= i < |wanted| && wanted[i].row == r;
        assert wanted[i] in wanted;
      }
      if WantsImport(requests, r) {
        var q :| q in requests && q.importRequired && q.row == r;
        assert q in wanted;
        var i :| 0 <= i < |wanted| && wanted[i] == q;
      }
    }
  }

  function BlockOf(q: PlanRequest): int { if q.blocks != [] then q.blocks[0] else 0 }

  function Generations(requests: seq<PlanRequest>): seq<int> { Scatter(requests, GenerationOf, 0, BATCH) }

  function BlockIds(requests: seq<PlanRequest>): seq<int> { Scatter(requests, BlockOf, 0, BATCH) }

  // ----- the payload

  /** Payload block `i` of a transfer: row `i % 4` of layer `i % 112 / 4`, keys in the first half. */
  function SourceOf(i: nat): (source: nat)
    requires i < 2 * HALF_BLOCKS
    ensures source < SOURCES
  {
    i % HALF_BLOCKS / BATCH * 2 + i / HALF_BLOCKS
  }

  function PayloadBytes(blocks: seq<Block>): (p: seq<Byte>)
    requires |blocks| == 2 * HALF_BLOCKS
    ensures |p| == PAYLOAD_BYTES
  {
    JoinedSize(blocks);
    Wire.Join(blocks)
  }

  lemma JoinedSize(blocks: seq<Block>)
    requires |blocks| == 2 * HALF_BLOCKS
    ensures |Wire.Join(blocks)| == PAYLOAD_BYTES
  {
    Wire.JoinAt(blocks, BLOCK_BYTES, 0);
  }

  /** The blocks of a joined payload, as the device cuts it. */
  lemma PayloadBytesAt(blocks: seq<Block>, i: nat)
    requires |blocks| == 2 * HALF_BLOCKS && i < 2 * HALF_BLOCKS
    ensures PayloadBlock(PayloadBytes(blocks), i) == blocks[i]
  {
    Wire.JoinAt(blocks, BLOCK_BYTES, i);
  }

  // ----- the snapshot mode

  /** The scheduler block of each import is inside every tensor's view. */
  predicate Snapshottable(s: Stock, requests: seq<PlanRequest>) { forall q | q in requests :: Usable(s, q) }

  predicate Usable(s: Stock, q: PlanRequest) {
    |q.blocks| == 1 && 0 <= q.blocks[0] && (q.blocks[0] + 1) * BLOCK_BYTES <= s.viewBytes
  }

  function SourceBlock(s: Stock, memory: Memory, source: nat, block: nat): Block
    requires source < SOURCES && Viewed(s, memory) && (block + 1) * BLOCK_BYTES <= s.viewBytes
  {
    BlockAt(memory(s.pointers[source]), s.offsets[source], block)
  }

  /** The block of one tensor a snapshot takes for a row: that of the request importing the row, or zeros. */
  ghost predicate SnapshotCell(s: Stock, memory: Memory, requests: seq<PlanRequest>, source: nat, row: int, b: Block)
    requires source < SOURCES && Viewed(s, memory)
  {
    Snapshottable(s, requests) ==>
      && (forall q | q in requests && q.row == row :: b == SourceBlock(s, memory, source, q.blocks[0]))
      && (!HasRow(requests, row) ==> b == ZeroBlock())
  }

  /** Block `i` of the snapshot is right. */
  ghost predicate SnapshotBlock(s: Stock, memory: Memory, requests: seq<PlanRequest>, i: nat, b: Block)
    requires i < 2 * HALF_BLOCKS && Viewed(s, memory)
  {
    SnapshotCell(s, memory, requests, SourceOf(i), i % BATCH, b)
  }

  datatype Snapshot = Snapshot(mask: nat, generations: seq<int>, blocks: seq<Block>)

  /** Find the request importing a row. */
  method ByRow(requests: seq<PlanRequest>, row: nat) returns (q: Option<PlanRequest>)
    ensures q.None? <==> !HasRow(requests, row)
    ensures q.Some? ==> q.value in requests && q.value.row == row
  {
    q := None;
    for n := 0 to |requests|
      invariant q.None? ==> forall i :: 0 <= i < n ==> requests[i].row != row
      invariant q.Some? ==> q.value in requests && q.value.row == row
    {
      if requests[n].row == row { q := Some(requests[n]); }
    }
  }

  lemma OneRequest(requests: seq<PlanRequest>, q: PlanRequest, t: PlanRequest)
    requires DistinctRows(requests) && q in requests && t in requests && q.row == t.row
    ensures q == t
  {
    var i :| 0 <= i < |requests| && requests[i] == q;
    var j :| 0 <= j < |requests| && requests[j] == t;
  }

  lemma CellOfRequest(s: Stock, memory: Memory, requests: seq<PlanRequest>, q: PlanRequest, source: nat)
    requires source < SOURCES && Viewed(s, memory) && DistinctRows(requests) && q in requests && Usable(s, q)
    ensures SnapshotCell(s, memory, requests, source, q.row, SourceBlock(s, memory, source, q.blocks[0]))
  {
    forall t | t in requests && t.row == q.row
      ensures t == q
    {
      OneRequest(requests, q, t);
    }
    var k :| 0 <= k < |requests| && requests[k] == q;
  }

  /** One row of one layer: its key and its value block; not ok when its request has no usable block. */
  method SnapshotRow(s: Stock, memory: Memory, requests: seq<PlanRequest>, layer: nat, row: nat)
    returns (ok: bool, key: Block, value: Block)
    requires layer < LAYERS && row < BATCH && Viewed(s, memory) && DistinctRows(requests)
    ensures ok == forall q | q in requests && q.row == row :: Usable(s, q)
    ensures ok ==>
              && SnapshotCell(s, memory, requests, layer * 2, row, key)
              && SnapshotCell(s, memory, requests, layer * 2 + 1, row, value)
  {
    key, value := ZeroBlock(), ZeroBlock();
    var found := ByRow(requests, row);
    if found.None? {
      forall q | q in requests
        ensures q.row != row
      {
        var k :| 0 <= k < |requests| && requests[k] == q;
      }
      return true, key, value;
    }
    var q := found.value;
    if |q.blocks| != 1 || q.blocks[0] < 0 || q.blocks[0] >= s.viewBytes / BLOCK_BYTES {
      assert !Usable(s, q);
      return false, key, value;
    }
    forall t | t in requests && t.row == row
      ensures t == q
    {
      OneRequest(requests, q, t);
    }
    ok := true;
    key := SourceBlock(s, memory, layer * 2, q.blocks[0]);
    value := SourceBlock(s, memory, layer * 2 + 1, q.blocks[0]);
    CellOfRequest(s, memory, requests, q, layer * 2);
    CellOfRequest(s, memory, requests, q, layer * 2 + 1);
  }

  /** The first `n` blocks of each half are right. */
  ghost predicate SnapshotUpTo(s: Stock, memory: Memory, requests: seq<PlanRequest>, n: nat, keys: seq<Block>, values: seq<Block>)
    requires Viewed(s, memory)
  {
    && |keys| == |values| == n <= HALF_BLOCKS
    && forall i: nat | i < n ::
         SnapshotBlock(s, memory, requests, i, keys[i]) && SnapshotBlock(s, memory, requests, HALF_BLOCKS + i, values[i])
  }

  lemma SourcesAt(layer: nat, row: nat)
    requires layer < LAYERS && row < BATCH
    ensures var i := layer * BATCH + row;
            && i < HALF_BLOCKS && i % BATCH == row == (HALF_BLOCKS + i) % BATCH
            && SourceOf(i) == layer * 2 && SourceOf(HALF_BLOCKS + i) == layer * 2 + 1
  {
    var i := layer * BATCH + row;
    assert i / BATCH == layer;
    assert i < HALF_BLOCKS;
    assert i % HALF_BLOCKS == i && i / HALF_BLOCKS == 0;
    assert (HALF_BLOCKS + i) % HALF_BLOCKS == i && (HALF_BLOCKS + i) / HALF_BLOCKS == 1;
  }

  lemma SnapshotExtend(s: Stock, memory: Memory, requests: seq<PlanRequest>, layer: nat, row: nat,
                       keys: seq<Block>, values: seq<Block>, key: Block, value: Block)
    requires layer < LAYERS && row < BATCH && Viewed(s, memory)
    requires SnapshotUpTo(s, memory, requests, layer * BATCH + row, keys, values)
    requires SnapshotCell(s, memory, requests, layer * 2, row, key)
    requires SnapshotCell(s, memory, requests, layer * 2 + 1, row, value)
    ensures SnapshotUpTo(s, memory, requests, layer * BATCH + row + 1, keys + [key], values + [value])
  {
    SourcesAt(layer, row);
    var n := layer * BATCH + row;
    assert SnapshotBlock(s, memory, requests, n, key) && SnapshotBlock(s, memory, requests, HALF_BLOCKS + n, value);
    assert forall i: nat | i < n :: (keys + [key])[i] == keys[i] && (values + [value])[i] == values[i];
  }

  lemma SnapshotWhole(s: Stock, memory: Memory, requests: seq<PlanRequest>, keys: seq<Block>, values: seq<Block>)
    requires Viewed(s, memory) && SnapshotUpTo(s, memory, requests, HALF_BLOCKS, keys, values)
    ensures forall i: nat | i < 2 * HALF_BLOCKS :: SnapshotBlock(s, memory, requests, i, (keys + values)[i])
  {
    forall i: nat | i < 2 * HALF_BLOCKS
      ensures SnapshotBlock(s, memory, requests, i, (keys + values)[i])
    {
      if i >= HALF_BLOCKS { assert HALF_BLOCKS + (i - HALF_BLOCKS) == i; }
    }
  }

  /** The rows of one layer. */
  method SnapshotLayer(s: Stock, memory: Memory, requests: seq<PlanRequest>, layer: nat, keys0: seq<Block>, values0: seq<Block>)
    returns (ok: bool, keys: seq<Block>, values: seq<Block>)
    requires layer < LAYERS && Viewed(s, memory) && DistinctRows(requests) && InBatch(requests)
    requires SnapshotUpTo(s, memory, requests, layer * BATCH, keys0, values0)
    ensures ok == Snapshottable(s, requests)
    ensures ok ==> SnapshotUpTo(s, memory, requests, (layer + 1) * BATCH, keys, values)
  {
    keys, values := keys0, values0;
    for row := 0 to BATCH
      invariant SnapshotUpTo(s, memory, requests, layer * BATCH + row, keys, values)
      invariant forall q | q in requests && q.row < row :: Usable(s, q)
    {
      var rowOk, key, value := SnapshotRow(s, memory, requests, layer, row);
      if !rowOk {
        ghost var q :| q in requests && q.row == row && !Usable(s, q);
        return false, keys, values;
      }
      SnapshotExtend(s, memory, requests, layer, row, keys, values, key, value);
      keys := keys + [key];
      values := values + [value];
    }
    ok := true;
  }

  /** `capture_kv_snapshot`: the key blocks of every layer, then the value blocks. */
  method CaptureSnapshot(s: Stock, memory: Memory, p: Plan) returns (snapshot: Option<Snapshot>)
    requires Viewed(s, memory) && ValidPlan(p) && p.graphBatch == BATCH
    ensures snapshot.Some? <==> Imports(p.requests) != [] && p.capacity <= BLOCK_SIZE && Snapshottable(s, Imports(p.requests))
    ensures snapshot.Some? ==>
              var t := snapshot.value;
              && t.mask == SumMask(Imports(p.requests)) && t.generations == Generations(Imports(p.requests))
              && |t.blocks| == 2 * HALF_BLOCKS
              && forall i: nat | i < 2 * HALF_BLOCKS :: SnapshotBlock(s, memory, Imports(p.requests), i, t.blocks[i])
  {
    var requests := Imports(p.requests);
    ImportsDistinct(p.requests);
    assert forall q | q in requests :: ValidRequest(p, q);
    if requests == [] || p.capacity > BLOCK_SIZE { return None; }
    var keys, values: seq<Block> := [], [];
    for layer := 0 to LAYERS
      invariant SnapshotUpTo(s, memory, requests, layer * BATCH, keys, values)
      invariant layer > 0 ==> Snapshottable(s, requests)
    {
      var ok;
      ok, keys, values := SnapshotLayer(s, memory, requests, layer, keys, values);
      if !ok { return None; }
    }
    SnapshotWhole(s, memory, requests, keys, values);
    snapshot := Some(Snapshot(SumMask(requests), Generations(requests), keys + values));
  }
}
