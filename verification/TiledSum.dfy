/** Inner products taken slice by slice, in any rotated order, and part by part, in exact arithmetic. */
module TiledSum {
  import opened Swizzle

  function Sum(f: nat -> real, lo: nat, hi: nat): real
    decreases hi
  {
    if hi <= lo then 0.0 else Sum(f, lo, hi - 1) + f(hi - 1)
  }

  lemma {:induction false} SumJoin(f: nat -> real, lo: nat, mid: nat, hi: nat)
    requires lo <= mid <= hi
    ensures Sum(f, lo, hi) == Sum(f, lo, mid) + Sum(f, mid, hi)
    decreases hi
  {
    if mid < hi { SumJoin(f, lo, mid, hi - 1); }
  }

  /** Equal terms, counted from another start. */
  lemma {:induction false} SumSame(f: nat -> real, g: nat -> real, base: nat, n: nat)
    requires forall i: nat | i < n :: f(i) == g(base + i)
    ensures Sum(f, 0, n) == Sum(g, base, base + n)
    decreases n
  {
    if n > 0 {
      SumSame(f, g, base, n - 1);
      assert f(n - 1) == g(base + (n - 1));
      assert base + n - 1 == base + (n - 1);
    }
  }

  // ----- tiles of one dimension

  /** How many tiles of `size` cover `length`. */
  function Tiles(length: nat, size: nat): nat
    requires size > 0
  {
    Decompose(length + size - 1, size);
    (length + size - 1) / size
  }

  /** The length of a tile: the last one may be shorter. */
  function TileLength(length: nat, size: nat, tile: nat): int
    requires size > 0
  {
    if tile == Tiles(length, size) - 1 then length - tile * size else size
  }

  lemma TileFits(length: nat, size: nat, tile: nat)
    requires size > 0 && tile < Tiles(length, size)
    ensures 1 <= TileLength(length, size, tile) <= size && tile * size + TileLength(length, size, tile) <= length
    ensures tile + 1 < Tiles(length, size) ==> tile * size + TileLength(length, size, tile) == (tile + 1) * size
    ensures tile + 1 == Tiles(length, size) ==> tile * size + TileLength(length, size, tile) == length
  {
    var tiles := Tiles(length, size);
    Decompose(length + size - 1, size);
    Distribute(tile, 1, size);
    if tile + 1 < tiles {
      MultiplyMonotone(tile + 2, tiles, size);
      Distribute(tile, 2, size);
    }
  }

  /** Every place is in the tile its quotient says, and in no other. */
  lemma TileOf(length: nat, size: nat, x: nat)
    requires size > 0 && x < length
    ensures x / size < Tiles(length, size) && x % size < TileLength(length, size, x / size)
  {
    Decompose(x, size);
    var tiles := Tiles(length, size);
    Decompose(length + size - 1, size);
    if x / size >= tiles {
      MultiplyMonotone(tiles, x / size, size);
    }
    if x / size == tiles - 1 { TileFits(length, size, x / size); }
  }

  /** The sums of the first `n` tiles make the sum of what they cover. */
  function SumOfTile(f: nat -> real, length: nat, size: nat, tile: nat): real
    requires size > 0 && tile < Tiles(length, size)
  {
    TileFits(length, size, tile);
    Sum(f, tile * size, tile * size + TileLength(length, size, tile))
  }

  function SumOfTiles(f: nat -> real, length: nat, size: nat, n: nat): real
    requires size > 0 && n <= Tiles(length, size)
  {
    if n == 0 then 0.0 else SumOfTiles(f, length, size, n - 1) + SumOfTile(f, length, size, n - 1)
  }

  function Covered(length: nat, size: nat, n: nat): nat
    requires size > 0
  {
    if n == 0 then 0 else if n < Tiles(length, size) then n * size else length
  }

  lemma {:induction false} TilesSum(f: nat -> real, length: nat, size: nat, n: nat)
    requires size > 0 && n <= Tiles(length, size)
    ensures SumOfTiles(f, length, size, n) == Sum(f, 0, Covered(length, size, n))
  {
    if n > 0 {
      TilesSum(f, length, size, n - 1);
      TileFits(length, size, n - 1);
      assert Covered(length, size, n - 1) == (n - 1) * size;
      SumJoin(f, 0, (n - 1) * size, Covered(length, size, n));
    }
  }

  lemma WholeSum(f: nat -> real, length: nat, size: nat)
    requires size > 0 && length > 0
    ensures Tiles(length, size) > 0 && SumOfTiles(f, length, size, Tiles(length, size)) == Sum(f, 0, length)
  {
    TileOf(length, size, 0);
    TilesSum(f, length, size, Tiles(length, size));
  }

  // ----- rotation

  /** The slice a core takes at step `t`. */
  function Rotate(t: nat, shift: nat, slices: nat): (s: nat)
    requires slices > 0
    ensures s < slices
  {
    Decompose(t + shift, slices);
    (t + shift) % slices
  }

  /** Rotating `t` steps from a reduced shift. */
  lemma RotateIs(t: nat, shift: nat, slices: nat)
    requires slices > 0 && t < slices
    ensures var s := shift % slices;
            0 <= s < slices && Rotate(t, shift, slices) == if t < slices - s then t + s else t + s - slices
  {
    Decompose(shift, slices);
    var q, s := shift / slices, shift % slices;
    if t < slices - s {
      DivideBy(q, t + s, slices);
    } else {
      Distribute(q, 1, slices);
      DivideBy(q + 1, t + s - slices, slices);
    }
  }

  /** The step that takes a slice. */
  function Unrotate(s: nat, shift: nat, slices: nat): (t: nat)
    requires slices > 0 && s < slices
    ensures t < slices
  {
    Decompose(shift, slices);
    var c := shift % slices;
    if s >= c then s - c else s + slices - c
  }

  /** The k-shuffle is a permutation of the slices. */
  lemma RotateIsPermutation(t: nat, s: nat, shift: nat, slices: nat)
    requires t < slices && s < slices
    ensures Unrotate(Rotate(t, shift, slices), shift, slices) == t
    ensures Rotate(Unrotate(s, shift, slices), shift, slices) == s
  {
    RotateIs(t, shift, slices);
    RotateIs(Unrotate(s, shift, slices), shift, slices);
  }

  /** The slices summed in rotated order, `n` steps. */
  function Rotated(f: nat -> real, length: nat, size: nat, shift: nat, n: nat): real
    requires size > 0 && n <= Tiles(length, size)
  {
    if n == 0 then 0.0
    else Rotated(f, length, size, shift, n - 1) + SumOfTile(f, length, size, Rotate(n - 1, shift, Tiles(length, size)))
  }

  /** After `n` steps the rotated sum has the slices from the shift on, wrapping around. */
  lemma {:induction false} RotatedIs(f: nat -> real, length: nat, size: nat, shift: nat, n: nat)
    requires size > 0 && 0 < Tiles(length, size) && n <= Tiles(length, size)
    ensures var slices := Tiles(length, size);
            var s := shift % slices;
            && 0 <= s < slices
            && Rotated(f, length, size, shift, n) + SumOfTiles(f, length, size, s) ==
               if n <= slices - s then SumOfTiles(f, length, size, s + n)
               else SumOfTiles(f, length, size, slices) + SumOfTiles(f, length, size, n + s - slices)
  {
    var slices := Tiles(length, size);
    Decompose(shift, slices);
    if n > 0 {
      RotatedIs(f, length, size, shift, n - 1);
      RotateIs(n - 1, shift, slices);
    }
  }

  /** In any rotated order the slices make the whole inner product. */
  lemma RotatedWhole(f: nat -> real, length: nat, size: nat, shift: nat)
    requires size > 0 && length > 0
    ensures Tiles(length, size) > 0 && Rotated(f, length, size, shift, Tiles(length, size)) == Sum(f, 0, length)
  {
    WholeSum(f, length, size);
    RotatedIs(f, length, size, shift, Tiles(length, size));
  }
}
