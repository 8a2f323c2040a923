/** Fixed sizes of the B=4 decoder graph and the paged KV cache laid out in whole blocks.

    Every copy and every clear in the controller moves whole KV blocks, so a cache is a sequence of
    blocks: block `b` of layer `l` is entry `l * PHYSICAL_BLOCKS + b`, at byte offset
    `(l * PHYSICAL_BLOCKS + b) * BLOCK_BYTES`. */
module Layout {
  const BATCH := 4
  const MAX_EPOCH_STEPS := 8
  const LOGICAL_CAPACITY := 8
  const PHYSICAL_BLOCKS := 8
  const BLOCKS_PER_REQUEST := 2
  const BLOCK_SIZE := 128
  const VOCAB_SIZE := 152064
  const LAYERS := 28
  const BLOCK_BYTES := 131072
  const CACHE_BLOCKS := 224 // LAYERS * PHYSICAL_BLOCKS
  const ROW_BLOCKS := 56 // LAYERS * BLOCKS_PER_REQUEST
  const HALF_BLOCKS := 112 // LAYERS * BATCH: the key half (or the value half) of an import payload
  const PAYLOAD_BYTES := 29360128 // 2 * HALF_BLOCKS * BLOCK_BYTES

  type Byte = x: int | 0 <= x < 256
  type Block = b: seq<Byte> | |b| == BLOCK_BYTES witness seq<Byte>(BLOCK_BYTES, _ => 0)
  type Cache = c: seq<Block> | |c| == CACHE_BLOCKS witness seq<Block>(CACHE_BLOCKS, _ => ZeroBlock())

  function ZeroBlock(): Block { seq<Byte>(BLOCK_BYTES, _ => 0) }
  function ZeroCache(): Cache { seq<Block>(CACHE_BLOCKS, _ => ZeroBlock()) }

  datatype Option<+T> = None | Some(value: T)

  /** The row that owns cache entry `i` in the identity layout. */
  function OwnerRow(i: nat): (row: nat)
    ensures row < BATCH
  {
    i % PHYSICAL_BLOCKS / 2
  }

  /** The cache entry of a row's `i`-th block, in layer order. */
  function Entry(row: nat, i: nat): (k: nat)
    requires row < BATCH && i < ROW_BLOCKS
    ensures k < CACHE_BLOCKS && OwnerRow(k) == row && k % 2 == i % 2 && k / PHYSICAL_BLOCKS == i / 2
  {
    i / 2 * PHYSICAL_BLOCKS + row * 2 + i % 2
  }

  /** The blocks the identity layout gives to one row. */
  function RowBlocks(c: Cache, row: nat): (r: seq<Block>)
    requires row < BATCH
  {
    seq<Block>(ROW_BLOCKS, i requires 0 <= i < ROW_BLOCKS => c[Entry(row, i)])
  }

  predicate Bit(mask: int, row: nat)
    requires row < BATCH
  {
    match row
    case 0 => mask % 2 == 1
    case 1 => mask / 2 % 2 == 1
    case 2 => mask / 4 % 2 == 1
    case _ => mask / 8 % 2 == 1
  }

  /** Cache entry `i` is entry `i / 8 * 2 + i % 2` of its owner's blocks, so the four rows determine the cache. */
  lemma CacheEntry(c: Cache, i: nat)
    requires i < CACHE_BLOCKS
    ensures 0 <= i / 8 * 2 + i % 2 < ROW_BLOCKS
    ensures RowBlocks(c, OwnerRow(i))[i / 8 * 2 + i % 2] == c[i]
  {
    var j := i / 8 * 2 + i % 2;
    assert j / 2 == i / 8 && j % 2 == i % 2;
    assert Entry(OwnerRow(i), j) == i;
  }

  lemma RowsDetermineCache(a: Cache, b: Cache)
    requires forall row: nat | row < BATCH :: RowBlocks(a, row) == RowBlocks(b, row)
    ensures a == b
  {
    forall i: nat | i < CACHE_BLOCKS
      ensures a[i] == b[i]
    {
      CacheEntry(a, i);
      CacheEntry(b, i);
    }
  }

  /** A change outside a row's own entries leaves the row's blocks alone. */
  lemma RowBlocksFrame(a: Cache, b: Cache, row: nat)
    requires row < BATCH
    requires forall i: nat | i < CACHE_BLOCKS && OwnerRow(i) == row :: a[i] == b[i]
    ensures RowBlocks(a, row) == RowBlocks(b, row)
  {
    assert forall i: nat | i < ROW_BLOCKS :: RowBlocks(a, row)[i] == a[Entry(row, i)] == RowBlocks(b, row)[i];
  }
}
