/** The tiled batched matrix product: what it computes, and the data that travels through its buffers. Matrix
    elements are real numbers, so that only the order of the work matters. */
module TiledProduct {
  import opened Swizzle
  import opened TiledSum
  import opened Pipeline

  const L0_LENGTH := 16384

  /** Shapes, tile sizes and swizzle of one launch; `a(batch, row, k)` and `b(batch, k, col)` are the inputs. */
  datatype Op = Op(
    batches: nat, m: nat, k: nat, n: nat, m0: nat, k0: nat, n0: nat, count: nat, direct: nat, shuffle: bool,
    a: (nat, nat, nat) -> real, b: (nat, nat, nat) -> real)
  {
    predicate Valid() {
      m > 0 && k > 0 && n > 0 && 0 < m0 <= 1024 && k0 > 0 && 0 < n0 <= 1024 && count > 0 && direct < 2
    }

    function Tiling(): (g: Grid)
      requires Valid()
      ensures g.Valid()
    {
      TileOf(m, m0, 0);
      TileOf(n, n0, 0);
      Grid(Tiles(m, m0), Tiles(n, n0), count, direct)
    }

    function Slices(): (s: nat)
      requires Valid()
      ensures s > 0
    {
      TileOf(k, k0, 0);
      Tiles(k, k0)
    }

    /** `coreLoop` */
    function Loops(): nat
      requires Valid()
    {
      batches * (Tiling().m * Tiling().n)
    }

    /** The terms of one element's inner product. */
    function Term(batch: nat, row: nat, col: nat): nat -> real {
      (x: nat) => a(batch, row, x) * b(batch, x, col)
    }

    function Shift(core: nat): nat { if shuffle then core else 0 }
  }

  /** One element of the plain product. */
  function Product(op: Op, batch: nat, row: nat, col: nat): real { Sum(op.Term(batch, row, col), 0, op.k) }

  function RoundUp16(x: nat): (r: nat)
    ensures x <= r < x + 16 && r % 16 == 0
  {
    (x + 15) / 16 * 16
  }

  function Widest(rows: nat, cols: nat): nat { if RoundUp16(rows) > RoundUp16(cols) then RoundUp16(rows) else RoundUp16(cols) }

  /** `k_part_len`: how much of a slice fits the L0 buffers next to the tile. */
  function PartLength(rows: nat, cols: nat): (length: nat)
    requires 0 < rows <= 1024 && 0 < cols <= 1024
    ensures length >= 16
  {
    var widest := Widest(rows, cols);
    assert widest <= 1024 by { SixteenMultiple(RoundUp16(rows)); SixteenMultiple(RoundUp16(cols)); }
    QuotientAtLeast(L0_LENGTH, widest, 16);
    L0_LENGTH / widest / 16 * 16
  }

  /** A part of the rounded tile fits an L0 buffer on both sides, and one of 16 more would not. */
  lemma PartFits(rows: nat, cols: nat)
    requires 0 < rows <= 1024 && 0 < cols <= 1024
    ensures var length := PartLength(rows, cols);
            && length % 16 == 0 && length * RoundUp16(rows) <= L0_LENGTH && length * RoundUp16(cols) <= L0_LENGTH
            && (length + 16) * Widest(rows, cols) > L0_LENGTH
  {
    var widest := Widest(rows, cols);
    assert widest > 0 && PartLength(rows, cols) == L0_LENGTH / widest / 16 * 16;
    QuotientBounds(L0_LENGTH, widest);
    FloorBounds(L0_LENGTH / widest);
    FloorFits(L0_LENGTH, widest, L0_LENGTH / widest, PartLength(rows, cols));
    ProductGrows(PartLength(rows, cols), RoundUp16(rows), widest);
    ProductGrows(PartLength(rows, cols), RoundUp16(cols), widest);
    MultipleOf16(L0_LENGTH / widest / 16);
  }

  lemma ProductGrows(a: nat, b: nat, c: nat)
    requires b <= c
    ensures a * b <= a * c
  {
  }

  lemma MultipleOf16(a: nat)
    ensures a * 16 % 16 == 0
  {
  }

  lemma FloorFits(x: nat, d: nat, q: nat, p: nat)
    requires d * q <= x < d * (q + 1) && p <= q < p + 16
    ensures p * d <= x < (p + 16) * d
  {
    ProductGrows(d, p, q);
    ProductGrows(d, q + 1, p + 16);
  }

  lemma QuotientBounds(x: nat, d: nat)
    requires d > 0
    ensures d * (x / d) <= x < d * (x / d + 1)
  {
  }

  lemma FloorBounds(q: nat)
    ensures q / 16 * 16 <= q < q / 16 * 16 + 16
  {
  }

  lemma SixteenMultiple(x: nat)
    requires x % 16 == 0 && x < 1024 + 16
    ensures x <= 1024
  {
  }

  lemma QuotientAtLeast(x: nat, d: nat, q: nat)
    requires d > 0 && x >= q * d
    ensures x / d >= q
  {
    Decompose(x, d);
    if x / d < q {
      MultiplyMonotone(x / d + 1, q, d);
      Distribute(x / d, 1, d);
    }
  }

  // ----- what the buffers hold

  /** A slice of an input: a tile of its rows (or columns) and a slice of the inner dimension. */
  datatype Slice = Slice(batch: nat, tile: nat, k: nat)

  /** The L0 buffers: a part of a slice of each input. */
  datatype Part = Part(left: Slice, right: Slice, start: nat, length: nat)

  datatype Content = SliceIn(slice: Slice) | PartIn(part: Part) | TileIn(tile: Tile)

  /** The two L1 buffers of each input, the two L0 buffers and the accumulator's way out, with all flag instructions so
      far in program order. */
  datatype Pipes = Pipes(left: seq<Buffer<Content>>, right: seq<Buffer<Content>>, l0: seq<Buffer<Content>>, out: Buffer<Content>,
                         log: seq<Instruction<Content>>)
  {
    predicate Shaped() { |left| == 2 && |right| == 2 && |l0| == 2 }

    function At(s: Slot): Buffer<Content>
      requires Shaped()
    {
      match s
      case Left(side) => left[side]
      case Right(side) => right[side]
      case Cube(half) => l0[half]
      case Out => out
    }

    function With(s: Slot, b: Buffer<Content>): (p: Pipes)
      requires Shaped()
      ensures p.Shaped() && p.log == log && p.At(s) == b && forall t: Slot | t != s :: p.At(t) == At(t)
    {
      match s
      case Left(side) => this.(left := left[side := b])
      case Right(side) => this.(right := right[side := b])
      case Cube(half) => this.(l0 := l0[half := b])
      case Out => this.(out := b)
    }

    /** The log is a program that has brought every buffer to its state. */
    ghost predicate Traced()
      requires Shaped()
    {
      AllPass(log) && forall s: Slot {:trigger Recorded(log, s, At(s))} :: Recorded(log, s, At(s))
    }

    ghost predicate Valid() {
      && Shaped() && Traced() && out.Valid()
      && forall i :: 0 <= i < 2 ==> left[i].Valid() && right[i].Valid() && l0[i].Valid()
    }

    /** Execute a flag operation of a buffer. */
    function Do(s: Slot, op: Operation<Content>): (p: Pipes)
      requires Valid() && At(s).Can(op)
      ensures p.Valid()
    {
      DoTraced(s, op);
      With(s, At(s).Do(op)).(log := log + [Instruction(s, op)])
    }

    lemma DoTraced(s: Slot, op: Operation<Content>)
      requires Valid() && At(s).Can(op)
      ensures With(s, At(s).Do(op)).(log := log + [Instruction(s, op)]).Valid()
    {
      var p := With(s, At(s).Do(op)).(log := log + [Instruction(s, op)]);
      assert Recorded(log, s, At(s));
      Record(log, s, At(s), op);
      forall t: Slot
        ensures Recorded(p.log, t, p.At(t)) && p.At(t).Valid()
      {
        assert Recorded(log, t, At(t));
        if t != s { RecordElsewhere(log, s, op, t, At(t)); }
      }
      assert p.At(Out).Valid();
      forall i: Half
        ensures p.left[i].Valid() && p.right[i].Valid() && p.l0[i].Valid()
      {
        assert p.At(Left(i)).Valid() && p.At(Right(i)).Valid() && p.At(Cube(i)).Valid();
      }
    }

    /** The log is a program; when every flag has been waited for, the program drains them. */
    lemma LogIsProgram()
      requires Valid()
      ensures Program(log) && (Drained() ==> Drains(log))
    {
      forall s: Slot
        ensures TakeTurns(Ops(log, s, true), Ops(log, s, false))
        ensures Drained() ==> CountsOn(log, s).setFree == CountsOn(log, s).waitedFree && CountsOn(log, s).setReady == CountsOn(log, s).waitedReady
      {
        assert Recorded(log, s, At(s));
        RecordedTurns(log, s, At(s));
        RecordedCounts(log, s, At(s));
      }
    }

    /** The L1 buffers of a side are both empty. */
    predicate Spare(side: nat)
      requires Valid() && side < 2
    {
      left[side].stage.Empty? && right[side].stage.Empty?
    }

    /** The L1 buffers of a side hold these slices, ready to be read. */
    predicate Loaded(side: nat, l: Slice, r: Slice)
      requires Valid() && side < 2
    {
      && left[side].stage.Full? && left[side].content == SliceIn(l)
      && right[side].stage.Full? && right[side].content == SliceIn(r)
    }

    predicate L0Empty()
      requires Valid()
    {
      l0[0].stage.Empty? && l0[1].stage.Empty?
    }

    /** Load one buffer: wait, fill, set. */
    function Load(s: Slot, c: Content): (p: Pipes)
      requires Valid() && At(s).stage.Empty?
      ensures p.Valid() && p == With(s, Buffer(Full, 0, 1, c)).(log := p.log)
    {
      Do(s, WaitsFree).Do(s, SetsReady(c))
    }

    /** Load both inputs of a side. */
    function Refill(side: nat, l: Slice, r: Slice): (p: Pipes)
      requires Valid() && side < 2 && Spare(side)
      ensures p.Valid() && p.Loaded(side, l, r) && p.left[1 - side] == left[1 - side] && p.right[1 - side] == right[1 - side]
      ensures p.l0 == l0 && p.out == out
    {
      var p := Load(Left(side), SliceIn(l));
      p.Load(Right(side), SliceIn(r))
    }

    /** Every flag has been waited for. */
    predicate Drained()
      requires Shaped()
    {
      out.Drained() && forall i :: 0 <= i < 2 ==> left[i].Drained() && right[i].Drained() && l0[i].Drained()
    }
  }

  // ----- one part

  /** The products a part contributes to element `(i, j)` of the tile. */
  function PartTerm(op: Op, p: Part, i: nat, j: nat): nat -> real {
    (x: nat) => op.a(p.left.batch, p.left.tile * op.m0 + i, p.left.k * op.k0 + p.start + x)
                * op.b(p.right.batch, p.right.k * op.k0 + p.start + x, p.right.tile * op.n0 + j)
  }

  /** When both sides are of the same slice, they are the products of that stretch of the inner dimension. */
  lemma PartSum(op: Op, p: Part, batch: nat, tile: Tile, s: nat, i: nat, j: nat)
    requires p.left == Slice(batch, tile.m, s) && p.right == Slice(batch, tile.n, s)
    ensures Sum(PartTerm(op, p, i, j), 0, p.length) ==
            Sum(op.Term(batch, tile.m * op.m0 + i, tile.n * op.n0 + j), s * op.k0 + p.start, s * op.k0 + p.start + p.length)
  {
    SumSame(PartTerm(op, p, i, j), op.Term(batch, tile.m * op.m0 + i, tile.n * op.n0 + j), s * op.k0 + p.start, p.length);
  }

  /** `Mad`: add a part's products to the accumulator, or start it with them. */
  method Mad(op: Op, l0c: array2<real>, p: Part, rows: nat, cols: nat, init: bool)
    requires rows <= l0c.Length0 && cols <= l0c.Length1
    modifies l0c
    ensures forall i: nat, j: nat | i < rows && j < cols ::
              l0c[i, j] == (if init then 0.0 else old(l0c[i, j])) + Sum(PartTerm(op, p, i, j), 0, p.length)
  {
    forall i: nat, j: nat | i < rows && j < cols {
      l0c[i, j] := (if init then 0.0 else l0c[i, j]) + Sum(PartTerm(op, p, i, j), 0, p.length);
    }
  }

  /** The accumulator holds, for every element of the tile, what `base` has plus a stretch of the inner product. */
  ghost predicate Accumulated(op: Op, l0c: array2<real>, batch: nat, tile: Tile, rows: nat, cols: nat,
                              base: (nat, nat) -> real, lo: nat, hi: nat)
    requires rows <= l0c.Length0 && cols <= l0c.Length1
    reads l0c
  {
    forall i: nat, j: nat | i < rows && j < cols ::
      l0c[i, j] == base(i, j) + Sum(op.Term(batch, tile.m * op.m0 + i, tile.n * op.n0 + j), lo, hi)
  }

  /** One part on top of those before it. */
  method AddPart(op: Op, l0c: array2<real>, p: Part, rows: nat, cols: nat, init: bool,
                 ghost batch: nat, ghost tile: Tile, ghost s: nat, ghost base: (nat, nat) -> real)
    requires rows <= l0c.Length0 && cols <= l0c.Length1
    requires p.left == Slice(batch, tile.m, s) && p.right == Slice(batch, tile.n, s)
    requires init ==> p.start == 0 && forall i: nat, j: nat :: base(i, j) == 0.0
    requires !init ==> Accumulated(op, l0c, batch, tile, rows, cols, base, s * op.k0, s * op.k0 + p.start)
    modifies l0c
    ensures Accumulated(op, l0c, batch, tile, rows, cols, base, s * op.k0, s * op.k0 + p.start + p.length)
  {
    label before:
    Mad(op, l0c, p, rows, cols, init);
    forall i: nat, j: nat | i < rows && j < cols
      ensures l0c[i, j] == base(i, j) + Sum(op.Term(batch, tile.m * op.m0 + i, tile.n * op.n0 + j), s * op.k0, s * op.k0 + p.start + p.length)
    {
      PartSum(op, p, batch, tile, s, i, j);
      SumJoin(op.Term(batch, tile.m * op.m0 + i, tile.n * op.n0 + j), s * op.k0, s * op.k0 + p.start, s * op.k0 + p.start + p.length);
    }
  }

  // ----- one slice

  /** The pipes while a slice is taken in parts: before the first part its buffers are full, then they are being read,
      after the last part they are free again. */
  ghost predicate Taking(w: Pipes, side: nat, l: Slice, r: Slice, part: nat, parts: nat)
    requires side < 2
  {
    && w.Valid() && w.L0Empty()
    && (part == 0 ==> w.Loaded(side, l, r))
    && (0 < part < parts ==>
          && w.left[side].stage.Reading? && w.left[side].content == SliceIn(l)
          && w.right[side].stage.Reading? && w.right[side].content == SliceIn(r))
    && (part == parts ==> w.Spare(side))
  }

  /** The other side, and the way out, stay as they are. */
  ghost predicate OtherSide(v: Pipes, w: Pipes, side: nat)
    requires v.Valid() && w.Valid() && side < 2
  {
    v.left[1 - side] == w.left[1 - side] && v.right[1 - side] == w.right[1 - side]
  }

  /** Bring one part of the slice into an L0 buffer: waits and sets on both sides. The cube unit has it in hand
      afterwards. */
  method TakePart(w0: Pipes, side: nat, part: nat, parts: nat, start: nat, length: nat, ghost l: Slice, ghost r: Slice)
    returns (w: Pipes, taken: Part)
    requires side < 2 && part < parts && Taking(w0, side, l, r, part, parts)
    ensures InHand(w, side, l, r, part, parts) && OtherSide(w0, w, side) && w.out == w0.out
    ensures taken == Part(l, r, start, length)
  {
    var e: Half := part % 2;
    var a, b, c := Slot.Left(side), Slot.Right(side), Cube(e);
    w := w0;
    if part == 0 { w := w.Do(a, WaitsReady(w.At(a).content)); }
    w := w.Do(c, WaitsFree);
    var left := w.At(a).content.slice;
    if part == parts - 1 { w := w.Do(a, SetsFree); }
    if part == 0 { w := w.Do(b, WaitsReady(w.At(b).content)); }
    var right := w.At(b).content.slice;
    if part == parts - 1 { w := w.Do(b, SetsFree); }
    w := w.Do(c, SetsReady(PartIn(Part(left, right, start, length))));
    w := w.Do(c, WaitsReady(w.At(c).content));
    taken := w.At(c).content.part;
  }

  /** As `Taking` after the part, but with its L0 buffer still in use. */
  ghost predicate InHand(w: Pipes, side: nat, l: Slice, r: Slice, part: nat, parts: nat)
    requires side < 2 && part < parts
  {
    && w.Valid() && w.l0[part % 2].stage.Reading? && w.l0[1 - part % 2].stage.Empty?
    && (part + 1 < parts ==>
          && w.left[side].stage.Reading? && w.left[side].content == SliceIn(l)
          && w.right[side].stage.Reading? && w.right[side].content == SliceIn(r))
    && (part + 1 == parts ==> w.Spare(side))
  }

  /** Where part `part` of a slice starts, and how long it is. */
  lemma PartsCover(length: nat, size: nat, part: nat)
    requires size > 0 && length > 0 && part < Tiles(length, size)
    ensures TileLength(length, size, part) >= 1
    ensures part * size + TileLength(length, size, part) == if part + 1 == Tiles(length, size) then length else (part + 1) * size
  {
    TileFits(length, size, part);
  }

  /** The state between the parts of a slice: pipes, way out and accumulator. */
  ghost predicate Between(op: Op, w0: Pipes, w: Pipes, side: nat, batch: nat, tile: Tile, s: nat, part: nat, parts: nat, done: nat,
                          l0c: array2<real>, rows: nat, cols: nat, unset: bool, base: (nat, nat) -> real)
    requires side < 2 && rows <= l0c.Length0 && cols <= l0c.Length1 && w0.Valid()
    reads l0c
  {
    && Taking(w, side, Slice(batch, tile.m, s), Slice(batch, tile.n, s), part, parts) && OtherSide(w0, w, side)
    && (if unset then w.out.stage.Empty? else w.out.stage.Filling?)
    && (!unset ==> Accumulated(op, l0c, batch, tile, rows, cols, base, s * op.k0, s * op.k0 + done))
  }

  /** The same, and the first part of a tile waits for the accumulator. */
  method BringPart(w: Pipes, side: nat, part: nat, parts: nat, start: nat, length: nat, init: bool, ghost l: Slice, ghost r: Slice)
    returns (v: Pipes, taken: Part)
    requires side < 2 && part < parts && Taking(w, side, l, r, part, parts) && if init then w.out.stage.Empty? else w.out.stage.Filling?
    ensures InHand(v, side, l, r, part, parts) && OtherSide(w, v, side) && v.out.stage.Filling?
    ensures taken == Part(l, r, start, length)
  {
    v, taken := TakePart(w, side, part, parts, start, length, l, r);
    if init { v := v.Do(Out, WaitsFree); }
  }

  /** After the products have been added the L0 buffer is free again. */
  method LetGo(w: Pipes, side: nat, ghost l: Slice, ghost r: Slice, part: nat, parts: nat) returns (v: Pipes)
    requires side < 2 && part < parts && InHand(w, side, l, r, part, parts)
    ensures Taking(v, side, l, r, part + 1, parts) && OtherSide(w, v, side) && v.out == w.out
  {
    var e: Half := part % 2;
    v := w.Do(Cube(e), SetsFree);
  }

  /** One part: into the L0 buffers, then into the accumulator. */
  method TakeAndAdd(op: Op, ghost w0: Pipes, w: Pipes, side: nat, part: nat, parts: nat, start: nat, length: nat, l0c: array2<real>,
                    rows: nat, cols: nat, init: bool, ghost batch: nat, ghost tile: Tile, ghost s: nat, ghost base: (nat, nat) -> real)
    returns (v: Pipes)
    requires side < 2 && part < parts && rows <= l0c.Length0 && cols <= l0c.Length1 && w0.Valid()
    requires init ==> start == 0 && forall i: nat, j: nat :: base(i, j) == 0.0
    requires Between(op, w0, w, side, batch, tile, s, part, parts, start, l0c, rows, cols, init, base)
    modifies l0c
    ensures Between(op, w0, v, side, batch, tile, s, part + 1, parts, start + length, l0c, rows, cols, false, base)
  {
    var taken, u;
    ghost var l, r := Slice(batch, tile.m, s), Slice(batch, tile.n, s);
    u, taken := BringPart(w, side, part, parts, start, length, init, l, r);
    AddPart(op, l0c, taken, rows, cols, init, batch, tile, s, base);
    assert Accumulated(op, l0c, batch, tile, rows, cols, base, s * op.k0, s * op.k0 + (start + length)) by {
      assert s * op.k0 + taken.start + taken.length == s * op.k0 + (start + length);
    }
    v := LetGo(u, side, l, r, part, parts);
  }

  /** All the parts of one slice; the accumulator is started by the first part of the first slice. */
  method TakeSlice(op: Op, w0: Pipes, side: nat, ghost batch: nat, ghost tile: Tile, ghost s: nat, length: nat, partLength: nat,
                   l0c: array2<real>, rows: nat, cols: nat, first: bool, ghost base: (nat, nat) -> real)
    returns (w: Pipes)
    requires side < 2 && w0.Valid() && w0.L0Empty() && w0.Loaded(side, Slice(batch, tile.m, s), Slice(batch, tile.n, s))
    requires length > 0 && partLength > 0 && rows <= l0c.Length0 && cols <= l0c.Length1
    requires if first then w0.out.stage.Empty? else w0.out.stage.Filling?
    requires first ==> forall i: nat, j: nat :: base(i, j) == 0.0
    requires !first ==> forall i: nat, j: nat | i < rows && j < cols :: l0c[i, j] == base(i, j)
    modifies l0c
    ensures w.Valid() && w.L0Empty() && w.Spare(side) && OtherSide(w0, w, side) && w.out.stage.Filling?
    ensures Accumulated(op, l0c, batch, tile, rows, cols, base, s * op.k0, s * op.k0 + length)
  {
    var parts := Tiles(length, partLength);
    TileOf(length, partLength, 0);
    w := w0;
    ghost var done: nat := 0;
    for part := 0 to parts
      invariant Between(op, w0, w, side, batch, tile, s, part, parts, done, l0c, rows, cols, first && part == 0, base)
      invariant done == if part == parts then length else part * partLength
    {
      PartsCover(length, partLength, part);
      var start := part * partLength;
      var partActual := if part < parts - 1 then partLength else length - start;
      w := TakeAndAdd(op, w0, w, side, part, parts, start, partActual, l0c, rows, cols, first && part == 0, batch, tile, s, base);
      done := start + partActual;
    }
  }
}
