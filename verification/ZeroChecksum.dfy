/** A KV payload whose Adler-32 is zero: a valid snapshot that the bridge does not read. */
module ZeroChecksum {
  import opened Layout
  import opened Adler
  import opened Bridge
  import opened EpochSpec
  import opened ImportChecksum
  import opened Sidecar
  import KvTransfer

  function Repeat(b: Byte, n: nat): seq<Byte> { seq<Byte>(n, _ => b) }

  lemma RepeatNext(b: Byte, n: nat)
    requires n > 0
    ensures Repeat(b, n) != [] && Repeat(b, n)[..n - 1] == Repeat(b, n - 1) && Repeat(b, n)[n - 1] == b
  {
  }

  lemma OneZero(first: nat, second: nat)
    requires first < MODULUS
    ensures AddByte(Sums(first, second % MODULUS), 0) == Sums(first, (second + first) % MODULUS)
  {
    DelayedStep(Sums(first, second % MODULUS), first, second, 0);
  }

  function Times(n: nat, x: nat): nat { if n == 0 then 0 else Times(n - 1, x) + x }

  lemma {:induction false} TimesIs(n: nat, x: nat)
    ensures Times(n, x) == n * x
  {
    if n > 0 { TimesIs(n - 1, x); }
  }

  /** Zero bytes add the first sum to the second, once each. */
  lemma {:induction false} ZerosSum(n: nat, s: Sums)
    requires s.Reduced()
    ensures Sum(Repeat(0, n), s) == Sums(s.first, (s.second + Times(n, s.first)) % MODULUS)
  {
    if n > 0 {
      RepeatNext(0, n);
      ZerosSum(n - 1, s);
      var before := s.second + Times(n - 1, s.first);
      OneZero(s.first, before);
    }
  }

  /** The sum of 1 + 255 k for k up to n. */
  function Climb(n: nat): nat { n + 255 * (n * (n + 1) / 2) }

  lemma ClimbNext(n: nat)
    requires n > 0
    ensures Climb(n) == Climb(n - 1) + 1 + 255 * n
  {
    assert n * (n + 1) == (n - 1) * n + 2 * n;
  }

  lemma OneMore255(first: nat, second: nat)
    requires first + 255 < MODULUS
    ensures AddByte(Sums(first, second % MODULUS), 255) == Sums(first + 255, (second + first + 255) % MODULUS)
  {
    DelayedStep(Sums(first, second % MODULUS), first, second, 255);
  }

  /** Bytes of 255 after a first sum of 1. */
  lemma {:induction false} RunSum(n: nat, second: nat)
    requires n <= 256 && second < MODULUS
    ensures Sum(Repeat(255, n), Sums(1, second)) == Sums(1 + 255 * n, (second + Climb(n)) % MODULUS)
  {
    if n > 0 {
      RepeatNext(255, n);
      RunSum(n - 1, second);
      ClimbNext(n);
      OneMore255(1 + 255 * (n - 1), second + Climb(n - 1));
    }
  }

  const LEADING := 63473
  const TRAILING := 67342 // BLOCK_BYTES - LEADING - 257

  /** Bytes that take the sums from 1 and 0 to zero: the second sum climbs to a multiple of the modulus, then the first
      does. */
  function Climbing(): seq<Byte> { Repeat(0, LEADING) + Repeat(255, 256) }

  lemma LeadingSum()
    ensures Sum(Repeat(0, LEADING), START) == Sums(1, LEADING)
  {
    ZerosSum(LEADING, START);
    TimesIs(LEADING, 1);
  }

  lemma ClimbTop()
    ensures (LEADING + Climb(256)) % MODULUS == 0
  {
    assert Climb(256) == 8388736;
  }

  lemma ClimbingSum()
    ensures Sum(Climbing(), START) == Sums(65281, 0)
  {
    LeadingSum();
    RunSum(256, LEADING);
    ClimbTop();
    SumAppend(Repeat(0, LEADING), Repeat(255, 256), START);
  }

  function Cancelling(): Block { Climbing() + ([240] + Repeat(0, TRAILING)) }

  lemma EndSum()
    ensures Sum([240] + Repeat(0, TRAILING), Sums(65281, 0)) == Sums(0, 0)
  {
    assert [240 as Byte][..0] == [];
    assert Sum([240], Sums(65281, 0)) == AddByte(Sums(65281, 0), 240) == Sums(0, 0);
    ZerosSum(TRAILING, Sums(0, 0));
    TimesIs(TRAILING, 0);
    SumAppend([240], Repeat(0, TRAILING), Sums(65281, 0));
  }

  lemma CancellingSum()
    ensures Sum(Cancelling(), START) == Sums(0, 0)
  {
    ClimbingSum();
    EndSum();
    SumAppend(Climbing(), [240] + Repeat(0, TRAILING), START);
  }

  /** The first selected row. */
  function FirstRow(mask: int): (row: nat)
    requires 0 < mask < 16
    ensures row < BATCH && Bit(mask, row) && forall r: nat | r < row :: !Bit(mask, r)
  {
    if Bit(mask, 0) then 0 else if Bit(mask, 1) then 1 else if Bit(mask, 2) then 2 else 3
  }

  function CancellingBlock(mask: int, i: nat): Block
    requires 0 < mask < 16
  {
    if i == FirstRow(mask) then Cancelling() else ZeroBlock()
  }

  function CancellingBlocks(mask: int): (blocks: seq<Block>)
    requires 0 < mask < 16
    ensures |blocks| == 2 * HALF_BLOCKS
  {
    seq<Block>(2 * HALF_BLOCKS, i requires 0 <= i < 2 * HALF_BLOCKS => CancellingBlock(mask, i))
  }

  lemma {:induction false} CancellingBlocksSum(mask: int, n: nat)
    requires 0 < mask < 16 && n <= 2 * HALF_BLOCKS
    ensures BlocksSum(CancellingBlocks(mask), n, mask, START) == if n <= FirstRow(mask) then START else Sums(0, 0)
  {
    if n > 0 {
      CancellingBlocksSum(mask, n - 1);
      if n - 1 == FirstRow(mask) {
        CancellingSum();
      } else if n - 1 > FirstRow(mask) {
        assert ZeroBlock() == Repeat(0, BLOCK_BYTES);
        ZerosSum(BLOCK_BYTES, Sums(0, 0));
        TimesIs(BLOCK_BYTES, 0);
      }
    }
  }

  function CancellingPayload(mask: int): Payload
    requires 0 < mask < 16
  {
    KvTransfer.PayloadBytes(CancellingBlocks(mask))
  }

  /** For every import mask there is a payload with checksum zero. */
  lemma PayloadWithoutChecksum(mask: int)
    requires 0 < mask < 16
    ensures PayloadChecksum(CancellingPayload(mask), mask) == 0
  {
    var blocks := CancellingBlocks(mask);
    forall i: nat | i < 2 * HALF_BLOCKS
      ensures PayloadBlocks(CancellingPayload(mask))[i] == blocks[i]
    {
      KvTransfer.PayloadBytesAt(blocks, i);
    }
    assert PayloadBlocks(CancellingPayload(mask)) == blocks;
    BlocksSumIsSum(blocks, 2 * HALF_BLOCKS, mask, START);
    CancellingBlocksSum(mask, 2 * HALF_BLOCKS);
  }

  /** A snapshot with it is valid for the host and not accepted by the bridge. */
  lemma ValidButUnread(id: int, mask: int, generations: seq<int>) returns (f: SnapshotFile)
    requires id > 0 && |generations| == BATCH && 0 < mask < 16
    requires forall r: nat | r < BATCH :: generations[r] >= 0 && (Bit(mask, r) <==> generations[r] > 0)
    ensures f == SnapshotFile(id, mask, generations, CancellingPayload(mask), 0)
    ensures ValidSnapshot(f) && !FileAccepted(f, f.id, f.generations)
  {
    PayloadWithoutChecksum(mask);
    f := SnapshotFile(id, mask, generations, CancellingPayload(mask), 0);
  }
}
