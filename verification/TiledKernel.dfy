/** The kernel's outer loops: a core's tiles with double-buffered slices, and all the cores together. */
module TiledKernel {
  import opened Layout
  import opened Swizzle
  import opened TiledSum
  import opened Pipeline
  import opened TiledProduct

  /** The slice a core takes at step `t` of a tile. */
  function StepSlice(op: Op, core: nat, t: nat): (s: nat)
    requires op.Valid()
    ensures s < op.Slices()
  {
    Rotate(t, op.Shift(core), op.Slices())
  }

  /** The source's expression for it. */
  lemma StepSliceIs(op: Op, core: nat, t: nat)
    requires op.Valid() && t < op.Slices()
    ensures StepSlice(op, core, t) == if op.shuffle then (t + core) % op.Slices() else t
  {
    RotateIs(t, 0, op.Slices());
  }

  datatype Place = Place(batch: nat, tile: Tile)

  predicate InGrid(op: Op, p: Place)
    requires op.Valid()
  {
    p.tile.m < op.Tiling().m && p.tile.n < op.Tiling().n
  }

  function Rows(op: Op, tile: Tile): (r: nat)
    requires op.Valid() && tile.m < op.Tiling().m
    ensures 1 <= r <= op.m0
  {
    TileFits(op.m, op.m0, tile.m);
    TileLength(op.m, op.m0, tile.m)
  }

  function Cols(op: Op, tile: Tile): (c: nat)
    requires op.Valid() && tile.n < op.Tiling().n
    ensures 1 <= c <= op.n0
  {
    TileFits(op.n, op.n0, tile.n);
    TileLength(op.n, op.n0, tile.n)
  }

  /** A side holds the slices of a place. */
  ghost predicate Holds(w: Pipes, side: nat, p: Place, s: nat)
    requires w.Valid() && side < 2
  {
    w.Loaded(side, Slice(p.batch, p.tile.m, s), Slice(p.batch, p.tile.n, s))
  }

  function Fetch(w: Pipes, side: nat, p: Place, s: nat): (v: Pipes)
    requires w.Valid() && side < 2 && w.Spare(side)
    ensures v.Valid() && Holds(v, side, p, s) && v.l0 == w.l0 && v.out == w.out
    ensures v.left[1 - side] == w.left[1 - side] && v.right[1 - side] == w.right[1 - side]
  {
    w.Refill(side, Slice(p.batch, p.tile.m, s), Slice(p.batch, p.tile.n, s))
  }

  /** The accumulator after `t` slices. */
  ghost predicate Summed(op: Op, core: nat, p: Place, l0c: array2<real>, t: nat)
    requires op.Valid() && InGrid(op, p) && t <= op.Slices() && l0c.Length0 == op.m0 && l0c.Length1 == op.n0
    reads l0c
  {
    forall i: nat, j: nat | i < Rows(op, p.tile) && j < Cols(op, p.tile) ::
      l0c[i, j] == PartialSum(op, core, p, t, i, j)
  }

  function PartialSum(op: Op, core: nat, p: Place, t: nat, i: nat, j: nat): real
    requires op.Valid() && t <= op.Slices()
  {
    Rotated(op.Term(p.batch, p.tile.m * op.m0 + i, p.tile.n * op.n0 + j), op.k, op.k0, op.Shift(core), t)
  }

  /** The pipes before step `t` of a tile: this step's slices on the current side, the other side spare. */
  ghost predicate AtStep(op: Op, core: nat, p: Place, next: Option<Place>, w: Pipes, ping: nat, t: nat)
    requires op.Valid() && ping < 2 && t <= op.Slices()
  {
    && w.Valid() && w.L0Empty() && (if t == 0 then w.out.stage.Empty? else w.out.stage.Filling?)
    && w.Spare(ping)
    && (if t < op.Slices() then Holds(w, 1 - ping, p, StepSlice(op, core, t))
        else if next.Some? then Holds(w, 1 - ping, next.value, StepSlice(op, core, 0))
        else w.Spare(1 - ping))
  }

  /** Fetch what the next step needs into the other side: the tile's next slice, or the next tile's first one. */
  method Prefetch(op: Op, core: nat, p: Place, next: Option<Place>, w0: Pipes, ping: nat, t: nat) returns (w: Pipes)
    requires op.Valid() && ping < 2 && t < op.Slices() && AtStep(op, core, p, next, w0, ping, t)
    ensures w.Valid() && w.L0Empty() && w.out == w0.out && Holds(w, 1 - ping, p, StepSlice(op, core, t))
    ensures if t + 1 < op.Slices() then Holds(w, ping, p, StepSlice(op, core, t + 1))
            else if next.Some? then Holds(w, ping, next.value, StepSlice(op, core, 0))
            else w.Spare(ping)
  {
    w := w0;
    if t < op.Slices() - 1 {
      StepSliceIs(op, core, t + 1);
      w := Fetch(w, ping, p, if op.shuffle then (core + t + 1) % op.Slices() else t + 1);
    }
    if t == op.Slices() - 1 && next.Some? {
      StepSliceIs(op, core, 0);
      w := Fetch(w, ping, next.value, if op.shuffle then core % op.Slices() else 0);
    }
  }

  /** The slice of step `t` on top of the steps before it. */
  lemma SummedNext(op: Op, core: nat, p: Place, l0c: array2<real>, t: nat, length: nat, base: (nat, nat) -> real)
    requires op.Valid() && InGrid(op, p) && t < op.Slices() && l0c.Length0 == op.m0 && l0c.Length1 == op.n0
    requires forall i: nat, j: nat :: base(i, j) == PartialSum(op, core, p, t, i, j)
    requires length == TileLength(op.k, op.k0, StepSlice(op, core, t))
    requires var s := StepSlice(op, core, t);
             Accumulated(op, l0c, p.batch, p.tile, Rows(op, p.tile), Cols(op, p.tile), base, s * op.k0, s * op.k0 + length)
    ensures Summed(op, core, p, l0c, t + 1)
  {
    TileFits(op.k, op.k0, StepSlice(op, core, t));
  }

  /** One step of a tile: prefetch, then take the current slice. */
  method RunStep(op: Op, core: nat, p: Place, next: Option<Place>, w0: Pipes, ping: nat, t: nat, l0c: array2<real>)
    returns (w: Pipes)
    requires op.Valid() && InGrid(op, p) && ping < 2 && t < op.Slices() && AtStep(op, core, p, next, w0, ping, t)
    requires l0c.Length0 == op.m0 && l0c.Length1 == op.n0 && (t > 0 ==> Summed(op, core, p, l0c, t))
    modifies l0c
    ensures AtStep(op, core, p, next, w, 1 - ping, t + 1) && Summed(op, core, p, l0c, t + 1)
  {
    StepSliceIs(op, core, t);
    var s := if op.shuffle then (t + core) % op.Slices() else t;
    TileFits(op.k, op.k0, s);
    var length := if s == op.Slices() - 1 then op.k - s * op.k0 else op.k0;
    w := Prefetch(op, core, p, next, w0, ping, t);
    ghost var base := (i: nat, j: nat) => PartialSum(op, core, p, t, i, j);
    w := TakeSlice(op, w, 1 - ping, p.batch, p.tile, s, length, PartLength(Rows(op, p.tile), Cols(op, p.tile)),
                   l0c, Rows(op, p.tile), Cols(op, p.tile), t == 0, base);
    SummedNext(op, core, p, l0c, t, length, base);
  }

  /** A whole tile: afterwards the accumulator holds its plain inner products. */
  method RunTile(op: Op, core: nat, p: Place, next: Option<Place>, w0: Pipes, ping0: nat, l0c: array2<real>)
    returns (w: Pipes, ping: nat)
    requires op.Valid() && InGrid(op, p) && ping0 < 2 && AtStep(op, core, p, next, w0, ping0, 0)
    requires l0c.Length0 == op.m0 && l0c.Length1 == op.n0
    modifies l0c
    ensures ping < 2 && AtStep(op, core, p, next, w, ping, op.Slices())
    ensures forall i: nat, j: nat | i < Rows(op, p.tile) && j < Cols(op, p.tile) ::
              l0c[i, j] == Product(op, p.batch, p.tile.m * op.m0 + i, p.tile.n * op.n0 + j)
  {
    w, ping := w0, ping0;
    for t := 0 to op.Slices()
      invariant ping < 2 && AtStep(op, core, p, next, w, ping, t)
      invariant t > 0 ==> Summed(op, core, p, l0c, t)
    {
      w := RunStep(op, core, p, next, w, ping, t, l0c);
      ping := 1 - ping;
    }
    forall i: nat, j: nat | i < Rows(op, p.tile) && j < Cols(op, p.tile)
      ensures l0c[i, j] == Product(op, p.batch, p.tile.m * op.m0 + i, p.tile.n * op.n0 + j)
    {
      RotatedWhole(op.Term(p.batch, p.tile.m * op.m0 + i, p.tile.n * op.n0 + j), op.k, op.k0, op.Shift(core));
    }
  }

  // ----- the output

  predicate InOutput(op: Op, row: nat, batch: nat, col: nat) { row < op.m && batch < op.batches && col < op.n }

  /** An element of the tile at a place. */
  predicate Inside(op: Op, p: Place, row: nat, batch: nat, col: nat)
    requires op.Valid() && InGrid(op, p)
  {
    && batch == p.batch
    && p.tile.m * op.m0 <= row < p.tile.m * op.m0 + Rows(op, p.tile)
    && p.tile.n * op.n0 <= col < p.tile.n * op.n0 + Cols(op, p.tile)
  }

  /** The loop index whose tile has an element. */
  function Owner(op: Op, row: nat, batch: nat, col: nat): (index: nat)
    requires op.Valid() && InOutput(op, row, batch, col)
    ensures index < op.Loops()
  {
    TileOf(op.m, op.m0, row);
    TileOf(op.n, op.n0, col);
    Decompose(row, op.m0);
    Decompose(col, op.n0);
    SwizzleBack(op.Tiling(), op.batches, batch, row / op.m0, col / op.n0);
    IndexOf(op.Tiling(), batch, row / op.m0, col / op.n0)
  }

  function PlaceAt(op: Op, index: nat): (p: Place)
    requires op.Valid() && index < op.Loops()
    ensures InGrid(op, p) && p.batch < op.batches
  {
    SwizzleThere(op.Tiling(), op.batches, index);
    var (m, n) := TileAt(op.Tiling(), index);
    Place(BatchIndex(op.Tiling(), index), Tile(m, n))
  }

  /** A tile has exactly the elements whose owner it is: tiles cover the output without overlap. */
  lemma InsideIsOwned(op: Op, index: nat, row: nat, batch: nat, col: nat)
    requires op.Valid() && index < op.Loops() && InOutput(op, row, batch, col)
    ensures Inside(op, PlaceAt(op, index), row, batch, col) <==> Owner(op, row, batch, col) == index
  {
    var p := PlaceAt(op, index);
    SwizzleThere(op.Tiling(), op.batches, index);
    TileOf(op.m, op.m0, row);
    TileOf(op.n, op.n0, col);
    Decompose(row, op.m0);
    Decompose(col, op.n0);
    SwizzleBack(op.Tiling(), op.batches, batch, row / op.m0, col / op.n0);
    if Inside(op, p, row, batch, col) {
      DivideBy(p.tile.m, row - p.tile.m * op.m0, op.m0);
      DivideBy(p.tile.n, col - p.tile.n * op.n0, op.n0);
    }
  }

  /** The tile at an index lies in the output. */
  lemma PlaceInOutput(op: Op, p: Place)
    requires op.Valid() && InGrid(op, p)
    ensures p.tile.m * op.m0 + Rows(op, p.tile) <= op.m && p.tile.n * op.n0 + Cols(op, p.tile) <= op.n
  {
    TileFits(op.m, op.m0, p.tile.m);
    TileFits(op.n, op.n0, p.tile.n);
  }

  predicate OutputShape(op: Op, c: array3<real>, writes: array3<nat>) {
    && c.Length0 == op.m && c.Length1 == op.batches && c.Length2 == op.n
    && writes.Length0 == op.m && writes.Length1 == op.batches && writes.Length2 == op.n
  }

  /** `CopyCcToGm`: write the tile; `writes` counts how often each element has been written. */
  method CopyOut(op: Op, p: Place, l0c: array2<real>, c: array3<real>, writes: array3<nat>)
    requires op.Valid() && InGrid(op, p) && p.batch < op.batches && OutputShape(op, c, writes)
    requires l0c.Length0 == op.m0 && l0c.Length1 == op.n0
    modifies c, writes
    ensures forall row: nat, batch: nat, col: nat | InOutput(op, row, batch, col) ::
              if Inside(op, p, row, batch, col) then
                && c[row, batch, col] == l0c[row - p.tile.m * op.m0, col - p.tile.n * op.n0]
                && writes[row, batch, col] == old(writes[row, batch, col]) + 1
              else c[row, batch, col] == old(c[row, batch, col]) && writes[row, batch, col] == old(writes[row, batch, col])
  {
    PlaceInOutput(op, p);
    var top, left := p.tile.m * op.m0, p.tile.n * op.n0;
    forall row, col | top <= row < top + Rows(op, p.tile) && left <= col < left + Cols(op, p.tile) {
      c[row, p.batch, col] := l0c[row - top, col - left];
    }
    forall row, col | top <= row < top + Rows(op, p.tile) && left <= col < left + Cols(op, p.tile) {
      writes[row, p.batch, col] := writes[row, p.batch, col] + 1;
    }
  }

  /** An element has been written once, with its inner product, since the earlier state; or it has not changed. */
  twostate predicate Element(op: Op, c: array3<real>, writes: array3<nat>, row: nat, batch: nat, col: nat, written: bool)
    requires OutputShape(op, c, writes) && InOutput(op, row, batch, col)
    reads c, writes
  {
    if written then c[row, batch, col] == Product(op, batch, row, col) && writes[row, batch, col] == old(writes[row, batch, col]) + 1
    else c[row, batch, col] == old(c[row, batch, col]) && writes[row, batch, col] == old(writes[row, batch, col])
  }

  // ----- one core

  /** The flags as `Process` finds them after its first instructions, and leaves them before its last. */
  ghost predicate Quiet(w: Pipes) {
    w.Valid() && w.L0Empty() && w.Spare(0) && w.Spare(1) && w.out.stage.Empty?
  }

  /** Before the first instruction. */
  function Pair(c: Content): seq<Buffer<Content>> { [Untouched(c), Untouched(c)] }

  function NoFlags(): (w: Pipes)
    ensures w.Valid() && w.log == [] && forall s: Slot :: w.At(s).stage.Reading?
  {
    var c := TileIn(Tile(0, 0));
    var w := Pipes(Pair(c), Pair(c), Pair(c), Untouched(c), []);
    assert forall s: Slot :: w.At(s) == Untouched(c);
    assert forall s: Slot :: Recorded(w.log, s, w.At(s));
    w
  }

  /** The first sets: every buffer is free. */
  method SetFlags() returns (w: Pipes)
    ensures Quiet(w)
  {
    w := NoFlags();
    w := w.Do(Left(0), SetsFree);
    w := w.Do(Left(1), SetsFree);
    w := w.Do(Right(0), SetsFree);
    w := w.Do(Right(1), SetsFree);
    w := w.Do(Out, SetsFree);
    w := w.Do(Cube(0), SetsFree);
    w := w.Do(Cube(1), SetsFree);
  }

  /** The final waits: every flag that was set has been waited for. */
  method WaitForAll(w0: Pipes) returns (w: Pipes)
    requires Quiet(w0)
    ensures w.Valid() && w.Drained()
  {
    w := w0;
    w := w.Do(Cube(0), WaitsFree);
    w := w.Do(Cube(1), WaitsFree);
    w := w.Do(Left(0), WaitsFree);
    w := w.Do(Left(1), WaitsFree);
    w := w.Do(Right(0), WaitsFree);
    w := w.Do(Right(1), WaitsFree);
    w := w.Do(Out, WaitsFree);
  }

  /** The pipes at the head of the outer loop. */
  ghost predicate AtTile(op: Op, core: nat, index: nat, w: Pipes, ping: nat)
    requires op.Valid() && ping < 2
  {
    if index < op.Loops() && index != core then AtStep(op, core, PlaceAt(op, index), None, w, ping, 0) else Quiet(w)
  }

  /** The place a loop index stands for. */
  method Locate(op: Op, index: nat) returns (p: Place)
    requires op.Valid() && index < op.Loops()
    ensures p == PlaceAt(op, index)
  {
    var tile := GetBlockIdx(op.Tiling(), index);
    p := Place(BatchIndex(op.Tiling(), index), tile);
  }

  /** What the next tile needs, with the accumulator at this stage. */
  ghost predicate NextReady(op: Op, core: nat, next: Option<Place>, w: Pipes, ping: nat, stage: Stage)
    requires op.Valid() && ping < 2
  {
    && w.Valid() && w.L0Empty() && w.out.stage == stage && w.Spare(ping)
    && (if next.Some? then Holds(w, 1 - ping, next.value, StepSlice(op, core, 0)) else w.Spare(1 - ping))
  }

  /** The accumulator is handed to the output pipe. */
  method HandOut(op: Op, core: nat, p: Place, next: Option<Place>, w0: Pipes, ping: nat) returns (w: Pipes)
    requires op.Valid() && ping < 2 && NextReady(op, core, next, w0, ping, Filling)
    ensures NextReady(op, core, next, w, ping, Reading)
  {
    w := w0.Do(Out, SetsReady(TileIn(p.tile)));
    w := w.Do(Out, WaitsReady(w.out.content));
  }

  /** And is free again. */
  method HandBack(op: Op, core: nat, next: Option<Place>, w0: Pipes, ping: nat) returns (w: Pipes)
    requires op.Valid() && ping < 2 && NextReady(op, core, next, w0, ping, Reading)
    ensures NextReady(op, core, next, w, ping, Empty)
  {
    w := w0.Do(Out, SetsFree);
  }

  /** One pass of the outer loop: the tile of `index`, with the next tile's slices fetched at its end. */
  method RunIndex(op: Op, core: nat, cores: nat, index: nat, w0: Pipes, ping0: nat, l0c: array2<real>, c: array3<real>, writes: array3<nat>)
    returns (w: Pipes, ping: nat)
    requires op.Valid() && 0 < cores && core <= index < op.Loops() && ping0 < 2 && AtTile(op, core, index, w0, ping0)
    requires l0c.Length0 == op.m0 && l0c.Length1 == op.n0 && OutputShape(op, c, writes)
    modifies l0c, c, writes
    ensures ping < 2 && AtTile(op, core, index + cores, w, ping)
    ensures forall row: nat, batch: nat, col: nat | InOutput(op, row, batch, col) ::
              Element(op, c, writes, row, batch, col, Owner(op, row, batch, col) == index)
  {
    var p := Locate(op, index);
    w, ping := w0, ping0;
    if index == core {
      StepSliceIs(op, core, 0);
      w := Fetch(w, 1 - ping, p, if op.shuffle then core % op.Slices() else 0);
    }
    var next := None;
    if index + cores < op.Loops() {
      var following := Locate(op, index + cores);
      next := Some(following);
    }
    w, ping := RunTile(op, core, p, next, w, ping, l0c);
    w := HandOut(op, core, p, next, w, ping);
    CopyOut(op, p, l0c, c, writes);
    w := HandBack(op, core, next, w, ping);
    forall row: nat, batch: nat, col: nat | InOutput(op, row, batch, col)
      ensures Inside(op, p, row, batch, col) <==> Owner(op, row, batch, col) == index
    {
      InsideIsOwned(op, index, row, batch, col);
    }
  }

  /** The elements a core has written when it gets to `index`. */
  predicate Written(op: Op, core: nat, cores: nat, index: nat, row: nat, batch: nat, col: nat)
    requires op.Valid() && cores > 0 && InOutput(op, row, batch, col)
  {
    Owner(op, row, batch, col) % cores == core && Owner(op, row, batch, col) < index
  }

  /** Between `index` and the next index of the same core there is no other index of that core. */
  lemma NextIndex(core: nat, cores: nat, index: nat, owner: nat)
    requires core < cores && index % cores == core && owner % cores == core && owner < index + cores
    ensures owner <= index
    ensures (index + cores) % cores == core
  {
    Decompose(index, cores);
    Decompose(owner, cores);
    Distribute(index / cores, 1, cores);
    DivideBy(index / cores + 1, core, cores);
    if owner > index {
      if owner / cores <= index / cores {
        MultiplyMonotone(owner / cores, index / cores, cores);
      } else {
        MultiplyMonotone(index / cores + 1, owner / cores, cores);
      }
    }
  }

  lemma WrittenNext(op: Op, core: nat, cores: nat, index: nat)
    requires op.Valid() && core < cores && index % cores == core
    ensures (index + cores) % cores == core
    ensures forall row: nat, batch: nat, col: nat | InOutput(op, row, batch, col) ::
              Written(op, core, cores, index + cores, row, batch, col) <==>
              Owner(op, row, batch, col) == index || Written(op, core, cores, index, row, batch, col)
  {
    NextIndex(core, cores, index, index);
    forall row: nat, batch: nat, col: nat | InOutput(op, row, batch, col)
      ensures Written(op, core, cores, index + cores, row, batch, col) <==>
              Owner(op, row, batch, col) == index || Written(op, core, cores, index, row, batch, col)
    {
      if Written(op, core, cores, index + cores, row, batch, col) { NextIndex(core, cores, index, Owner(op, row, batch, col)); }
    }
  }

  /** What the output held before a core started. */
  datatype Before = Before(c: (nat, nat, nat) -> real, writes: (nat, nat, nat) -> nat)

  /** The output when a core has got to `index`. */
  ghost predicate Reached(op: Op, core: nat, cores: nat, index: nat, c: array3<real>, writes: array3<nat>, b: Before)
    requires op.Valid() && cores > 0 && OutputShape(op, c, writes)
    reads c, writes
  {
    forall row: nat, batch: nat, col: nat | InOutput(op, row, batch, col) ::
      if Written(op, core, cores, index, row, batch, col) then
        c[row, batch, col] == Product(op, batch, row, col) && writes[row, batch, col] == b.writes(row, batch, col) + 1
      else c[row, batch, col] == b.c(row, batch, col) && writes[row, batch, col] == b.writes(row, batch, col)
  }

  method RunNext(op: Op, core: nat, cores: nat, index: nat, w0: Pipes, ping0: nat, l0c: array2<real>, c: array3<real>, writes: array3<nat>,
                 ghost b: Before)
    returns (w: Pipes, ping: nat)
    requires op.Valid() && core < cores && core <= index < op.Loops() && index % cores == core
    requires ping0 < 2 && AtTile(op, core, index, w0, ping0)
    requires l0c.Length0 == op.m0 && l0c.Length1 == op.n0 && OutputShape(op, c, writes) && Reached(op, core, cores, index, c, writes, b)
    modifies l0c, c, writes
    ensures ping < 2 && AtTile(op, core, index + cores, w, ping) && Reached(op, core, cores, index + cores, c, writes, b)
  {
    WrittenNext(op, core, cores, index);
    w, ping := RunIndex(op, core, cores, index, w0, ping0, l0c, c, writes);
  }

  /** The outer loop: from the core's own number on, by the number of cores. */
  method RunCore(op: Op, core: nat, cores: nat, w0: Pipes, l0c: array2<real>, c: array3<real>, writes: array3<nat>, ghost b: Before)
    returns (w: Pipes, ghost end: nat)
    requires op.Valid() && core < cores && OutputShape(op, c, writes) && Quiet(w0)
    requires l0c.Length0 == op.m0 && l0c.Length1 == op.n0 && Reached(op, core, cores, core, c, writes, b)
    modifies l0c, c, writes
    ensures Quiet(w) && end >= op.Loops() && Reached(op, core, cores, end, c, writes, b)
  {
    w := w0;
    var ping, index := 1, core;
    DivideBy(0, core, cores);
    while index < op.Loops()
      invariant ping < 2 && core <= index && index % cores == core && AtTile(op, core, index, w, ping)
      invariant Reached(op, core, cores, index, c, writes, b)
      decreases op.Loops() - index
    {
      w, ping := RunNext(op, core, cores, index, w, ping, l0c, c, writes, b);
      NextIndex(core, cores, index, index);
      index := index + cores;
    }
    end := index;
  }

  /** `Process`: one core writes exactly the elements of its own indices, each once, with the plain inner product. Its flag
      instructions are a program all of whose interleavings run well: however the four pipes run, no flag has a second
      set outstanding, nothing is read while it is written, every read finds what it finds in program order, nothing
      blocks for ever, and no flag is left set. */
  method Process(op: Op, core: nat, cores: nat, c: array3<real>, writes: array3<nat>) returns (flags: Pipes)
    requires op.Valid() && core < cores && OutputShape(op, c, writes)
    modifies c, writes
    ensures flags.Valid() && flags.Drained() && Program(flags.log)
    ensures forall run | Execution(flags.log, run) :: RunsWell(flags.log, run)
    ensures forall row: nat, batch: nat, col: nat | InOutput(op, row, batch, col) ::
              Element(op, c, writes, row, batch, col, Owner(op, row, batch, col) % cores == core)
  {
    var l0c := new real[op.m0, op.n0];
    flags := SetFlags();
    ghost var b := Before((row: nat, batch: nat, col: nat) => if InOutput(op, row, batch, col) then old(c[row, batch, col]) else 0.0,
                          (row: nat, batch: nat, col: nat) => if InOutput(op, row, batch, col) then old(writes[row, batch, col]) else 0);
    NoneWritten(op, core, cores);
    ghost var end;
    flags, end := RunCore(op, core, cores, flags, l0c, c, writes, b);
    flags := WaitForAll(flags);
    flags.LogIsProgram();
    forall run | Execution(flags.log, run)
      ensures RunsWell(flags.log, run)
    {
      EveryExecutionRunsWell(flags.log, run);
    }
    assert forall row: nat, batch: nat, col: nat | InOutput(op, row, batch, col) ::
        Written(op, core, cores, end, row, batch, col) <==> Owner(op, row, batch, col) % cores == core;
  }

  /** No index of a core is below its number. */
  lemma NoneWritten(op: Op, core: nat, cores: nat)
    requires op.Valid() && core < cores
    ensures forall row: nat, batch: nat, col: nat | InOutput(op, row, batch, col) :: !Written(op, core, cores, core, row, batch, col)
  {
    forall row: nat, batch: nat, col: nat | InOutput(op, row, batch, col)
      ensures !Written(op, core, cores, core, row, batch, col)
    {
      var owner := Owner(op, row, batch, col);
      Decompose(owner, cores);
      MultiplyMonotone(0, owner / cores, cores);
    }
  }

  // ----- all cores

  predicate ServedBelow(op: Op, core: nat, cores: nat, row: nat, batch: nat, col: nat)
    requires op.Valid() && cores > 0 && InOutput(op, row, batch, col)
  {
    Owner(op, row, batch, col) % cores < core
  }

  /** The launch on any number of cores: every element of the output is written exactly once, and is the plain inner
      product. */
  method Launch(op: Op, cores: nat) returns (c: array3<real>, writes: array3<nat>)
    requires op.Valid() && cores > 0
    ensures OutputShape(op, c, writes)
    ensures forall row: nat, batch: nat, col: nat | InOutput(op, row, batch, col) ::
              c[row, batch, col] == Product(op, batch, row, col) && writes[row, batch, col] == 1
  {
    c := new real[op.m, op.batches, op.n];
    writes := new nat[op.m, op.batches, op.n]((_, _, _) => 0);
    for core := 0 to cores
      invariant OutputShape(op, c, writes) && fresh(c) && fresh(writes)
      invariant forall row: nat, batch: nat, col: nat | InOutput(op, row, batch, col) ::
                  if ServedBelow(op, core, cores, row, batch, col) then
                    c[row, batch, col] == Product(op, batch, row, col) && writes[row, batch, col] == 1
                  else writes[row, batch, col] == 0
    {
      var flags := Process(op, core, cores, c, writes);
    }
    forall row: nat, batch: nat, col: nat | InOutput(op, row, batch, col)
      ensures ServedBelow(op, cores, cores, row, batch, col)
    {
      Decompose(Owner(op, row, batch, col), cores);
    }
  }

  // ----- the flat output

  /** The address of an element in the flat output, rows of all batches interleaved. */
  function Address(op: Op, row: nat, batch: nat, col: nat): nat { (row * op.batches + batch) * op.n + col }

  /** The kernel's offset arithmetic for element `(i, j)` of a tile is the element's address. */
  lemma OffsetIsAddress(op: Op, p: Place, i: nat, j: nat)
    requires op.Valid() && InGrid(op, p)
    ensures p.tile.m * op.m0 * op.batches * op.n + p.batch * op.n + p.tile.n * op.n0 + i * (op.n * op.batches) + j ==
            Address(op, p.tile.m * op.m0 + i, p.batch, p.tile.n * op.n0 + j)
  {
    var row := p.tile.m * op.m0;
    Distribute(row, i, op.batches);
    Distribute(row * op.batches + i * op.batches, p.batch, op.n);
    Distribute(row * op.batches, i * op.batches, op.n);
    assert i * (op.n * op.batches) == i * op.batches * op.n by { Commute(op.n, op.batches); Associate(i, op.batches, op.n); }
  }

  lemma SameQuotient(q: nat, r: nat, q2: nat, r2: nat, d: nat)
    requires r < d && r2 < d && q * d + r == q2 * d + r2
    ensures q == q2 && r == r2
  {
    DivideBy(q, r, d);
    DivideBy(q2, r2, d);
  }

  lemma SameIndices(a: nat, b: nat, c: nat, a2: nat, b2: nat, c2: nat, size: nat, width: nat)
    requires b < size && b2 < size && c < width && c2 < width
    requires (a * size + b) * width + c == (a2 * size + b2) * width + c2
    ensures a == a2 && b == b2 && c == c2
  {
    var outer, outer2 := a * size + b, a2 * size + b2;
    SameQuotient(outer, c, outer2, c2, width);
    SameQuotient(a, b, a2, b2, size);
  }

  /** Different elements have different addresses. */
  lemma AddressesDiffer(op: Op, row: nat, batch: nat, col: nat, row2: nat, batch2: nat, col2: nat)
    requires op.Valid() && InOutput(op, row, batch, col) && InOutput(op, row2, batch2, col2)
    requires Address(op, row, batch, col) == Address(op, row2, batch2, col2)
    ensures row == row2 && batch == batch2 && col == col2
  {
    SameIndices(row, batch, col, row2, batch2, col2, op.batches, op.n);
  }

  // ----- the flat inputs

  /** An index into two interleaved dimensions, from the start of a stretch of the outer one. */
  lemma FromStart(start: nat, i: nat, size: nat, inner: nat, width: nat)
    ensures ((start + i) * size + inner) * width == start * size * width + inner * width + i * (size * width)
  {
    Distribute(start, i, size);
    Distribute(start * size + i * size, inner, width);
    Distribute(start * size, i * size, width);
    Associate(i, size, width);
  }

  /** Where the left input keeps `a(batch, row, x)`, plain or transposed. */
  function LeftAddress(op: Op, transposed: bool, batch: nat, row: nat, x: nat): nat {
    if transposed then (x * op.batches + batch) * op.m + row else (row * op.batches + batch) * op.k + x
  }

  /** The kernel's `offset_a` for a tile and a slice, stepped by the strides it gives the copy, is that address. */
  lemma LeftOffset(op: Op, transposed: bool, batch: nat, tile: nat, s: nat, i: nat, x: nat)
    ensures LeftAddress(op, transposed, batch, tile * op.m0 + i, s * op.k0 + x) ==
            if transposed then s * op.k0 * op.m * op.batches + batch * op.m + tile * op.m0 + x * (op.m * op.batches) + i
            else tile * op.m0 * op.batches * op.k + batch * op.k + s * op.k0 + i * (op.k * op.batches) + x
  {
    if transposed {
      FromStart(s * op.k0, x, op.batches, batch, op.m);
      Associate(s * op.k0, op.batches, op.m);
      Associate(s * op.k0, op.m, op.batches);
      Commute(op.batches, op.m);
    } else {
      FromStart(tile * op.m0, i, op.batches, batch, op.k);
      Commute(op.batches, op.k);
    }
  }

  /** Where the right input keeps `b(batch, x, col)`, plain or transposed. */
  function RightAddress(op: Op, transposed: bool, batch: nat, x: nat, col: nat): nat {
    if transposed then (batch * op.n + col) * op.k + x else (batch * op.k + x) * op.n + col
  }

  /** The kernel's `offset_b` likewise. */
  lemma RightOffset(op: Op, transposed: bool, batch: nat, tile: nat, s: nat, j: nat, x: nat)
    ensures RightAddress(op, transposed, batch, s * op.k0 + x, tile * op.n0 + j) ==
            if transposed then batch * op.k * op.n + tile * op.n0 * op.k + s * op.k0 + j * op.k + x
            else batch * op.k * op.n + s * op.k0 * op.n + tile * op.n0 + x * op.n + j
  {
    if transposed {
      Distribute(batch * op.n, tile * op.n0 + j, op.k);
      Distribute(tile * op.n0, j, op.k);
      Associate(batch, op.n, op.k);
      Associate(batch, op.k, op.n);
      Commute(op.k, op.n);
    } else {
      Distribute(batch * op.k, s * op.k0 + x, op.n);
      Distribute(s * op.k0, x, op.n);
    }
  }
}
