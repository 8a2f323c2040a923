/** The serpentine order in which the tiled kernel visits its tiles: a bijection from loop indices to tiles, split
    among the cores. */
module Swizzle {
  /** Tile counts, the swizzle width and which dimension is walked in bands. */
  datatype Grid = Grid(m: nat, n: nat, count: nat, direct: nat) {
    predicate Valid() { m > 0 && n > 0 && count > 0 && direct < 2 }
  }

  datatype Tile = Tile(m: nat, n: nat)

  // ----- arithmetic

  lemma DivideBy(q: nat, r: nat, d: nat)
    requires r < d
    ensures (q * d + r) / d == q && (q * d + r) % d == r
  {
    var x := q * d + r;
    assert x == d * (x / d) + x % d;
    if x / d < q {
      MultiplyMonotone(x / d + 1, q, d);
    } else if x / d > q {
      MultiplyMonotone(q + 1, x / d, d);
    }
  }

  lemma MultiplyMonotone(a: nat, b: nat, c: nat)
    requires a <= b
    ensures a * c <= b * c
  {
  }

  lemma Decompose(x: nat, d: nat)
    requires d > 0
    ensures x == x / d * d + x % d && 0 <= x % d < d && 0 <= x / d
  {
  }

  /** A quotient below its bound. */
  lemma QuotientBelow(x: nat, d: nat, bound: nat)
    requires d > 0 && x < bound * d
    ensures 0 <= x / d < bound
  {
    Decompose(x, d);
    if x / d >= bound { MultiplyMonotone(bound, x / d, d); }
  }

  /** Number `x` of `a` groups of `b`. */
  lemma IndexBelow(i: nat, j: nat, a: nat, b: nat)
    requires i < a && j < b
    ensures i * b + j < a * b
  {
    MultiplyMonotone(i + 1, a, b);
    assert (i + 1) * b == i * b + b;
  }

  lemma Commute(a: nat, b: nat)
    ensures a * b == b * a
  {
  }

  // ----- one batch

  /** Bands along the first dimension. */
  function Bands(tiles: nat, count: nat): nat
    requires count > 0
  {
    (tiles + count - 1) / count
  }

  /** The height of a band: the last one may be lower. */
  function BandHeight(tiles: nat, count: nat, band: nat): int
    requires count > 0
  {
    if band == Bands(tiles, count) - 1 then tiles - count * band else count
  }

  lemma BandFits(tiles: nat, count: nat, band: nat)
    requires count > 0 && band * count < tiles
    ensures band < Bands(tiles, count)
    ensures 1 <= BandHeight(tiles, count, band) <= count && band * count + BandHeight(tiles, count, band) <= tiles
    ensures band == Bands(tiles, count) - 1 || (band + 1) * count < tiles
  {
    var bands := Bands(tiles, count);
    Decompose(tiles + count - 1, count);
    if band >= bands {
      MultiplyMonotone(bands, band, count);
    }
    if band != bands - 1 {
      MultiplyMonotone(band + 2, bands, count);
      assert (band + 2) * count == band * count + 2 * count && (band + 1) * count == band * count + count;
    } else {
      assert bands * count == band * count + count;
      assert count * band == band * count;
    }
  }

  /** The band of an index. */
  function BandOf(cols: nat, count: nat, index: nat): nat
    requires cols > 0 && count > 0
  {
    MultiplyMonotone(1, count, cols);
    Decompose(index, count * cols);
    index / (count * cols)
  }

  /** The tile at `index` when bands of `count` rows are walked, every other one backwards. */
  function Serpentine(rows: nat, cols: nat, count: nat, index: nat): (int, int)
    requires cols > 0 && count > 0 && BandHeight(rows, count, BandOf(cols, count, index)) > 0
  {
    var band := BandOf(cols, count, index);
    var inBand := index % (count * cols);
    var height := BandHeight(rows, count, band);
    (band * count + inBand % height, if band % 2 != 0 then cols - inBand / height - 1 else inBand / height)
  }

  /** Where a tile comes in that order. */
  function Position(rows: nat, cols: nat, count: nat, row: nat, col: nat): nat
    requires count > 0 && row < rows && col < cols
  {
    Decompose(row, count);
    var band := row / count;
    PlaceInBand(band, count * cols, if band % 2 != 0 then cols - col - 1 else col, TallBand(rows, count, band), row - band * count)
  }

  function PlaceInBand(band: nat, size: nat, across: nat, height: nat, within: nat): nat {
    band * size + across * height + within
  }

  /** The height of a band that is there. */
  function TallBand(rows: nat, count: nat, band: nat): (height: nat)
    requires count > 0 && band * count < rows
    ensures height == BandHeight(rows, count, band)
  {
    BandFits(rows, count, band);
    BandHeight(rows, count, band)
  }

  /** The band of an index, and its place in the band. */
  lemma InBand(rows: nat, cols: nat, count: nat, index: nat)
    requires rows > 0 && cols > 0 && count > 0 && index < rows * cols
    ensures var band, inBand := BandOf(cols, count, index), index % (count * cols);
            && band * count < rows && 1 <= BandHeight(rows, count, band)
            && inBand < BandHeight(rows, count, band) * cols
  {
    var size := count * cols;
    assert size > 0 by { MultiplyMonotone(1, count, cols); }
    var band, inBand := index / size, index % size;
    Decompose(index, size);
    assert band * size == (band * count) * cols by { Associate(band, count, cols); }
    if band * count >= rows { MultiplyMonotone(rows, band * count, cols); }
    BandFits(rows, count, band);
    var height := BandHeight(rows, count, band);
    if band == Bands(rows, count) - 1 {
      Distribute(band * count, height, cols);
      assert band * count + height == rows by { assert count * band == band * count; }
    }
  }

  lemma Associate(a: nat, b: nat, c: nat)
    ensures a * (b * c) == (a * b) * c
  {
  }

  lemma Distribute(a: nat, b: nat, c: nat)
    ensures (a + b) * c == a * c + b * c
  {
  }

  /** Every index has a tile, and the tile's position is the index. */
  lemma SerpentineThere(rows: nat, cols: nat, count: nat, index: nat)
    requires rows > 0 && cols > 0 && count > 0 && index < rows * cols
    ensures BandHeight(rows, count, BandOf(cols, count, index)) > 0
    ensures var (row, col) := Serpentine(rows, cols, count, index);
            0 <= row < rows && 0 <= col < cols && Position(rows, cols, count, row, col) == index
  {
    InBand(rows, cols, count, index);
    var band, inBand := BandOf(cols, count, index), index % (count * cols);
    var height := BandHeight(rows, count, band);
    BandFits(rows, count, band);
    Commute(height, cols);
    QuotientBelow(inBand, height, cols);
    Decompose(inBand, height);
    MultiplyMonotone(1, count, cols);
    Decompose(index, count * cols);
    PositionInBand(rows, cols, count, band, inBand / height, inBand % height);
  }

  /** The position of a tile given by its band and its place in the band. */
  lemma PositionInBand(rows: nat, cols: nat, count: nat, band: nat, across: nat, within: nat)
    requires count > 0 && band * count < rows && across < cols
    requires BandHeight(rows, count, band) > 0 && within < BandHeight(rows, count, band)
    ensures var row, col := band * count + within, if band % 2 != 0 then cols - across - 1 else across;
            && row < rows && 0 <= col < cols
            && Position(rows, cols, count, row, col) == band * (count * cols) + across * BandHeight(rows, count, band) + within
  {
    BandFits(rows, count, band);
    DivideBy(band, within, count);
  }

  /** Every tile has a position, and that index leads back to the tile. */
  lemma SerpentineBack(rows: nat, cols: nat, count: nat, row: nat, col: nat)
    requires rows > 0 && cols > 0 && count > 0 && row < rows && col < cols
    ensures var index := Position(rows, cols, count, row, col);
            && 0 <= index < rows * cols && BandHeight(rows, count, BandOf(cols, count, index)) > 0
            && Serpentine(rows, cols, count, index) == (row, col)
  {
    var band := row / count;
    Decompose(row, count);
    BandFits(rows, count, band);
    var height := BandHeight(rows, count, band);
    var within := row - band * count;
    assert within < height by {
      if band == Bands(rows, count) - 1 { assert count * band == band * count; }
    }
    var across := if band % 2 != 0 then cols - col - 1 else col;
    WalkedTile(rows, cols, count, band, across, within, Position(rows, cols, count, row, col));
  }

  /** The tile at a given place of a band. */
  lemma WalkedTile(rows: nat, cols: nat, count: nat, band: nat, across: nat, within: nat, index: nat)
    requires cols > 0 && count > 0 && band * count < rows && across < cols
    requires BandHeight(rows, count, band) > 0 && within < BandHeight(rows, count, band)
    requires index == band * (count * cols) + across * BandHeight(rows, count, band) + within
    ensures index < rows * cols && count * cols > 0 && BandOf(cols, count, index) == band
    ensures Serpentine(rows, cols, count, index) == (band * count + within, if band % 2 != 0 then cols - across - 1 else across)
  {
    BandFits(rows, count, band);
    var height := BandHeight(rows, count, band);
    var inBand := across * height + within;
    var size := count * cols;
    IndexBelow(across, within, cols, height);
    MultiplyMonotone(height, count, cols);
    Commute(cols, height);
    DivideBy(band, inBand, size);
    DivideBy(across, within, height);
    Associate(band, count, cols);
    Distribute(band * count, height, cols);
    MultiplyMonotone(band * count + height, rows, cols);
  }

  // ----- all batches, both directions

  /** The tile of an index inside its batch. */
  function TileAt(g: Grid, index: nat): (int, int)
    requires g.Valid()
  {
    var inBatch := InBatch(g, index);
    if g.direct == 0 then
      SerpentineThere(g.m, g.n, g.count, inBatch);
      Serpentine(g.m, g.n, g.count, inBatch)
    else
      Commute(g.m, g.n);
      SerpentineThere(g.n, g.m, g.count, inBatch);
      var (n, m) := Serpentine(g.n, g.m, g.count, inBatch);
      (m, n)
  }

  function InBatch(g: Grid, index: nat): (i: nat)
    requires g.Valid()
    ensures i < g.m * g.n
  {
    MultiplyMonotone(1, g.m, g.n);
    index % (g.m * g.n)
  }

  function IndexOf(g: Grid, batch: nat, m: nat, n: nat): int
    requires g.Valid() && m < g.m && n < g.n
  {
    batch * (g.m * g.n) + if g.direct == 0 then Position(g.m, g.n, g.count, m, n) else Position(g.n, g.m, g.count, n, m)
  }

  /** The batch of an index. */
  function BatchIndex(g: Grid, index: nat): nat
    requires g.Valid()
  {
    Decompose(index, g.n);
    Decompose(index / g.n, g.m);
    index / g.n / g.m
  }

  lemma BatchOf(g: Grid, index: nat)
    requires g.Valid()
    ensures g.m * g.n > 0 && BatchIndex(g, index) == index / (g.m * g.n)
  {
    MultiplyMonotone(1, g.m, g.n);
    var q, r := index / g.n, index % g.n;
    Decompose(index, g.n);
    Decompose(q, g.m);
    var batch, row := q / g.m, q % g.m;
    Associate(batch, g.m, g.n);
    Distribute(batch * g.m, row, g.n);
    IndexBelow(row, r, g.m, g.n);
    DivideBy(batch, row * g.n + r, g.m * g.n);
  }

  /** One direction of `GetBlockIdx`: walk bands of `count` along the first dimension. */
  method Walk(rows: nat, cols: nat, count: nat, index: nat) returns (row: nat, col: nat)
    requires rows > 0 && cols > 0 && count > 0 && index < rows * cols
    ensures row < rows && col < cols
    ensures BandHeight(rows, count, BandOf(cols, count, index)) > 0 && Serpentine(rows, cols, count, index) == (row, col)
  {
    SerpentineThere(rows, cols, count, index);
    MultiplyMonotone(1, count, cols);
    Decompose(index, count * cols);
    var bands := (rows + count - 1) / count;
    var band: nat, inBand: nat := index / (count * cols), index % (count * cols);
    var height := count;
    if band == bands - 1 { height := rows - count * band; }
    Decompose(inBand, height);
    var along, across := band * count + inBand % height, inBand / height;
    if band % 2 != 0 { across := cols - across - 1; }
    row, col := along, across;
  }

  /** `GetBlockIdx`: the second direction walks along the other dimension. */
  method GetBlockIdx(g: Grid, index: nat) returns (tile: Tile)
    requires g.Valid()
    ensures tile.m < g.m && tile.n < g.n && TileAt(g, index) == (tile.m, tile.n)
  {
    var inBatch := InBatch(g, index);
    if g.direct == 0 {
      var m, n := Walk(g.m, g.n, g.count, inBatch);
      tile := Tile(m, n);
    } else {
      Commute(g.m, g.n);
      var n, m := Walk(g.n, g.m, g.count, inBatch);
      tile := Tile(m, n);
    }
  }

  /** The swizzle is a bijection between loop indices and (batch, m, n), for every grid and either direction. */
  lemma SwizzleThere(g: Grid, batches: nat, index: nat)
    requires g.Valid() && index < batches * (g.m * g.n)
    ensures var (m, n) := TileAt(g, index);
            0 <= m < g.m && 0 <= n < g.n && BatchIndex(g, index) < batches && IndexOf(g, BatchIndex(g, index), m, n) == index
  {
    BatchOf(g, index);
    Decompose(index, g.m * g.n);
    QuotientBelow(index, g.m * g.n, batches);
    var inBatch := InBatch(g, index);
    if g.direct == 0 {
      SerpentineThere(g.m, g.n, g.count, inBatch);
    } else {
      Commute(g.m, g.n);
      SerpentineThere(g.n, g.m, g.count, inBatch);
    }
  }

  lemma SwizzleBack(g: Grid, batches: nat, batch: nat, m: nat, n: nat)
    requires g.Valid() && batch < batches && m < g.m && n < g.n
    ensures var index := IndexOf(g, batch, m, n);
            && 0 <= index < batches * (g.m * g.n) && TileAt(g, index) == (m, n) && BatchIndex(g, index) == batch
  {
    var inBatch := if g.direct == 0 then Position(g.m, g.n, g.count, m, n) else Position(g.n, g.m, g.count, n, m);
    if g.direct == 0 {
      SerpentineBack(g.m, g.n, g.count, m, n);
    } else {
      Commute(g.m, g.n);
      SerpentineBack(g.n, g.m, g.count, n, m);
    }
    var index := IndexOf(g, batch, m, n);
    IndexBelow(batch, inBatch, batches, g.m * g.n);
    DivideBy(batch, inBatch, g.m * g.n);
    BatchOf(g, index);
  }

  // ----- cores

  /** The indices core `core` of `cores` visits: it starts at its own number and advances by the number of cores. */
  function Visit(core: nat, cores: nat, step: nat): nat { core + step * cores }

  /** Every index is visited by exactly one core, in exactly one step. */
  lemma CoresPartition(cores: nat, index: nat)
    requires cores > 0
    ensures index % cores < cores && Visit(index % cores, cores, index / cores) == index
    ensures forall core: nat, step: nat :: core < cores && Visit(core, cores, step) == index ==> core == index % cores && step == index / cores
  {
    Decompose(index, cores);
    forall core: nat, step: nat | core < cores && Visit(core, cores, step) == index
      ensures core == index % cores && step == index / cores
    {
      DivideBy(step, core, cores);
    }
  }
}
