/** Adler-32 (sections 2.2 and 8.2 of RFC 1950) and the chunked update of the resident epoch controller. */
module Adler {
  import opened Layout

  const MODULUS := 65521
  const CHUNK := 5552

  newtype U32 = x: int | 0 <= x < 0x1_0000_0000

  datatype Sums = Sums(first: nat, second: nat) {
    ghost predicate Reduced() { first < MODULUS && second < MODULUS }
  }

  const START := Sums(1, 0)

  /** One byte of the definition, reduced at once. */
  function AddByte(s: Sums, b: Byte): Sums {
    var first := (s.first + b) % MODULUS;
    Sums(first, (s.second + first) % MODULUS)
  }

  /** The definition: one byte after the other. */
  function Sum(data: seq<Byte>, s: Sums): (r: Sums)
    ensures s.Reduced() ==> r.Reduced()
  {
    if data == [] then s else AddByte(Sum(data[..|data| - 1], s), data[|data| - 1])
  }

  /** The 32-bit checksum word. */
  function Pack(s: Sums): nat { s.second * 65536 + s.first }

  function Unpack(word: nat): Sums { Sums(word % 65536, word / 65536) }

  lemma PackRoundTrip(s: Sums)
    requires s.Reduced()
    ensures Pack(s) < 0x1_0000_0000 && Unpack(Pack(s)) == s
  {
    assert s.first < 65536;
  }

  /** `zlib.adler32(data, value)`: continue from a packed word. */
  function Chain(data: seq<Byte>, word: nat): nat { Pack(Sum(data, Unpack(word))) }

  lemma {:induction false} SumAppend(a: seq<Byte>, b: seq<Byte>, s: Sums)
    ensures Sum(a + b, s) == Sum(b, Sum(a, s))
  {
    if b == [] {
      assert a + b == a;
    } else {
      var n := |b| - 1;
      assert (a + b)[..|a + b| - 1] == a + b[..n];
      SumAppend(a, b[..n], s);
    }
  }

  /** Largest value the second accumulator can have after `n` unreduced bytes. */
  function SecondBound(n: nat): nat { 65520 + n * 65520 + 255 * (n * (n + 1) / 2) }

  lemma SecondBoundStep(n: nat)
    ensures SecondBound(n + 1) == SecondBound(n) + 65520 + 255 * (n + 1)
  {
    assert (n + 1) * (n + 2) == n * (n + 1) + 2 * (n + 1);
  }

  lemma {:induction false} SecondBoundMonotone(n: nat, k: nat)
    requires n <= k
    ensures SecondBound(n) <= SecondBound(k)
    decreases k - n
  {
    if n < k {
      SecondBoundStep(n);
      SecondBoundMonotone(n + 1, k);
    }
  }

  /** 5552 is the largest chunk for which the worst case still fits 32 bits. */
  lemma ChunkIsMaximal(n: nat)
    ensures SecondBound(n) < 0x1_0000_0000 <==> n <= CHUNK
  {
    assert SecondBound(CHUNK) < 0x1_0000_0000 <= SecondBound(CHUNK + 1);
    if n <= CHUNK {
      SecondBoundMonotone(n, CHUNK);
    } else {
      SecondBoundMonotone(CHUNK + 1, n);
    }
  }

  /** The unreduced accumulators stay congruent to the definition. */
  lemma DelayedStep(s: Sums, first: nat, second: nat, b: Byte)
    requires s.first == first % MODULUS && s.second == second % MODULUS
    ensures AddByte(s, b) == Sums((first + b) % MODULUS, (second + first + b) % MODULUS)
  {
    assert (first % MODULUS + b) % MODULUS == (first + b) % MODULUS;
    assert (second % MODULUS + (first + b) % MODULUS) % MODULUS == (second + (first + b)) % MODULUS;
  }

  /** The accumulators after `n` unreduced bytes of a chunk. */
  ghost predicate Bounded(first: nat, second: nat, n: nat) { first <= 65520 + 255 * n && second <= SecondBound(n) }

  /** Inside a chunk neither accumulator leaves 32 bits. */
  lemma BoundedStep(first: nat, second: nat, n: nat, b: Byte)
    requires Bounded(first, second, n) && n < CHUNK
    ensures Bounded(first + b, second + first + b, n + 1)
    ensures first + b < 0x1_0000_0000 && second + first + b < 0x1_0000_0000
  {
    SecondBoundStep(n);
    ChunkIsMaximal(n + 1);
  }

  lemma SumNext(data: seq<Byte>, n: nat, start: Sums, first: nat, second: nat)
    requires n < |data| && Sum(data[..n], start) == Sums(first % MODULUS, second % MODULUS)
    ensures Sum(data[..n + 1], start) == Sums((first + data[n]) % MODULUS, (second + first + data[n]) % MODULUS)
  {
    assert data[..n + 1][..n] == data[..n];
    DelayedStep(Sum(data[..n], start), first, second, data[n]);
  }

  function Total(data: seq<Byte>): nat {
    if data == [] then 0 else Total(data[..|data| - 1]) + data[|data| - 1]
  }

  /** The totals of all non-empty prefixes together: the first byte counts as often as there are bytes, the last one once. */
  function PrefixTotals(data: seq<Byte>): nat {
    if data == [] then 0 else PrefixTotals(data[..|data| - 1]) + Total(data)
  }

  /** Reduction at every byte does not matter: the first sum is one plus all bytes, the second the sum of all first sums. */
  lemma {:induction false} SumIsTotals(data: seq<Byte>)
    ensures Sum(data, START) == Sums((1 + Total(data)) % MODULUS, (|data| + PrefixTotals(data)) % MODULUS)
  {
    if data != [] {
      var n := |data| - 1;
      SumIsTotals(data[..n]);
      var first, second := 1 + Total(data[..n]), n + PrefixTotals(data[..n]);
      DelayedStep(Sum(data[..n], START), first, second, data[n]);
    }
  }

  lemma SumMore(data: seq<Byte>, b: Byte, first: nat, second: nat)
    requires Sum(data, START) == Sums(first, second) && first + b < MODULUS && second + first + b < MODULUS
    ensures Sum(data + [b], START) == Sums(first + b, second + first + b)
  {
    assert (data + [b])[..|data|] == data;
  }

  /** The checksum of the nine letters of "Wikipedia". */
  lemma KnownChecksum()
    ensures Pack(Sum([87, 105, 107, 105, 112, 101, 100, 105, 97], START)) == 0x11E60398
  {
    SumMore([], 87, 1, 0);
    SumMore([] + [87], 105, 88, 88);
    SumMore([] + [87] + [105], 107, 193, 281);
    SumMore([] + [87] + [105] + [107], 105, 300, 581);
    SumMore([] + [87] + [105] + [107] + [105], 112, 405, 986);
    SumMore([] + [87] + [105] + [107] + [105] + [112], 101, 517, 1503);
    SumMore([] + [87] + [105] + [107] + [105] + [112] + [101], 100, 618, 2121);
    SumMore([] + [87] + [105] + [107] + [105] + [112] + [101] + [100], 105, 718, 2839);
    SumMore([] + [87] + [105] + [107] + [105] + [112] + [101] + [100] + [105], 97, 823, 3662);
    assert [] + [87] + [105] + [107] + [105] + [112] + [101] + [100] + [105] + [97] == [87, 105, 107, 105, 112, 101, 100, 105, 97];
  }

  /** One chunk, unreduced. */
  method AddChunk(data: seq<Byte>, done: nat, chunk: nat, first0: U32, second0: U32, ghost start: Sums) returns (first: U32, second: U32)
    requires done + chunk <= |data| && chunk <= CHUNK && first0 < 65521 && second0 < 65521
    requires Sum(data[..done], start) == Sums(first0 as nat, second0 as nat)
    ensures Sum(data[..done + chunk], start) == Sums(first as nat % MODULUS, second as nat % MODULUS)
  {
    first, second := first0, second0;
    var index := 0;
    while index < chunk
      invariant 0 <= index <= chunk && Bounded(first as nat, second as nat, index)
      invariant Sum(data[..done + index], start) == Sums(first as nat % MODULUS, second as nat % MODULUS)
    {
      var b := data[done + index];
      BoundedStep(first as nat, second as nat, index, b);
      SumNext(data, done + index, start, first as nat, second as nat);
      first := first + b as U32;
      second := second + first;
      index := index + 1;
    }
  }

  /** The controller's update: both accumulators are 32-bit and reduced once a chunk. */
  method Adler32Update(data: seq<Byte>, first0: U32, second0: U32) returns (first: U32, second: U32)
    requires Sums(first0 as nat, second0 as nat).Reduced()
    ensures Sums(first as nat, second as nat) == Sum(data, Sums(first0 as nat, second0 as nat))
  {
    first, second := first0, second0;
    ghost var start := Sums(first0 as nat, second0 as nat);
    var done := 0;
    assert data[..0] == [];
    while done < |data|
      invariant 0 <= done <= |data| && first < 65521 && second < 65521
      invariant Sums(first as nat, second as nat) == Sum(data[..done], start)
    {
      var chunk := if |data| - done > CHUNK then CHUNK else |data| - done;
      first, second := AddChunk(data, done, chunk, first, second, start);
      first := first % MODULUS as U32;
      second := second % MODULUS as U32;
      done := done + chunk;
    }
    assert data[..done] == data;
  }

  /** Checksum of the selected ones of the first `n` blocks, in order: 4 rows a layer, unselected rows skipped. */
  function BlocksSum(blocks: seq<Block>, n: nat, mask: int, s: Sums): (r: Sums)
    requires n <= |blocks|
    ensures s.Reduced() ==> r.Reduced()
  {
    if n == 0 then s
    else
      var before := BlocksSum(blocks, n - 1, mask, s);
      if Bit(mask, (n - 1) % BATCH) then Sum(blocks[n - 1], before) else before
  }

  /** One more block of a row. */
  lemma BlocksSumStep(blocks: seq<Block>, n: nat, row: nat, mask: int, s: Sums)
    requires n + row < |blocks| && n % BATCH == 0 && row < BATCH
    ensures BlocksSum(blocks, n + row + 1, mask, s) ==
            if Bit(mask, row) then Sum(blocks[n + row], BlocksSum(blocks, n + row, mask, s)) else BlocksSum(blocks, n + row, mask, s)
  {
    assert (n + row) % BATCH == row;
  }

  /** The bytes of the selected blocks, one after the other. */
  function SelectedBytes(blocks: seq<Block>, n: nat, mask: int): seq<Byte>
    requires n <= |blocks|
  {
    if n == 0 then []
    else SelectedBytes(blocks, n - 1, mask) + if Bit(mask, (n - 1) % BATCH) then blocks[n - 1] else []
  }

  /** Block-by-block updating is the checksum of the concatenation. */
  lemma {:induction false} BlocksSumIsSum(blocks: seq<Block>, n: nat, mask: int, s: Sums)
    requires n <= |blocks|
    ensures BlocksSum(blocks, n, mask, s) == Sum(SelectedBytes(blocks, n, mask), s)
  {
    if n > 0 {
      BlocksSumIsSum(blocks, n - 1, mask, s);
      if Bit(mask, (n - 1) % BATCH) {
        SumAppend(SelectedBytes(blocks, n - 1, mask), blocks[n - 1], s);
      } else {
        assert SelectedBytes(blocks, n, mask) == SelectedBytes(blocks, n - 1, mask);
      }
    }
  }

  /** Unselected blocks do not matter. */
  lemma {:induction false} BlocksSumSelected(a: seq<Block>, b: seq<Block>, n: nat, mask: int, s: Sums)
    requires n <= |a| && n <= |b|
    requires forall i: nat | i < n && Bit(mask, i % BATCH) :: a[i] == b[i]
    ensures BlocksSum(a, n, mask, s) == BlocksSum(b, n, mask, s)
  {
    if n > 0 { BlocksSumSelected(a, b, n - 1, mask, s); }
  }

  lemma SameRow(base: nat, i: nat)
    requires base % BATCH == 0
    ensures (base + i) % BATCH == i % BATCH
  {
  }

  /** Summing one list of blocks after another. */
  lemma {:induction false} BlocksSumConcat(a: seq<Block>, b: seq<Block>, n: nat, mask: int, s: Sums)
    requires |a| % BATCH == 0 && n <= |b|
    ensures BlocksSum(a + b, |a| + n, mask, s) == BlocksSum(b, n, mask, BlocksSum(a, |a|, mask, s))
  {
    if n == 0 {
      BlocksSumSelected(a + b, a, |a|, mask, s);
    } else {
      BlocksSumConcat(a, b, n - 1, mask, s);
      SameRow(|a|, n - 1);
      assert (a + b)[|a| + n - 1] == b[n - 1];
    }
  }
}
