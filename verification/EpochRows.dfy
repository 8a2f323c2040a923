/** The batched decode loop, seen one row at a time: what it produces for any decoder, and that with a
    row-local decoder every row runs the plain one-request decoder. */
module EpochRows {
  import opened Layout
  import opened Flow
  import opened EpochSpec

  // ----- one step

  /** A step that completes is the row step applied to every row. */
  lemma {:induction false} StepLanesOk(e: EpochInput, logits: seq<Logit>, next: Row4, lanes: Lanes, r: nat)
    requires r <= BATCH && |logits| == BATCH * VOCAB_SIZE
    requires StepLanes(e, logits, next, lanes, r).0 == OK
    ensures var t := StepLanes(e, logits, next, lanes, r).1;
            && (forall i: nat | r <= i < BATCH :: StepLane(e, RowLogits(logits, i), next[i], lanes[i], i) == (OK, t[i]))
            && (forall i: nat | i < r :: t[i] == lanes[i])
    decreases BATCH - r
  {
    if r < BATCH {
      var lane := StepLane(e, RowLogits(logits, r), next[r], lanes[r], r).1;
      StepLanesOk(e, logits, next, lanes[r := lane], r + 1);
    }
  }

  function Outputs(ctx: Context, e: EpochInput, l: Loop): seq<Tensor> { ctx.runFlowModel(DecoderInput(e, l)).outputs }

  lemma StepGo(ctx: Context, e: EpochInput, l: Loop, r: nat)
    requires Step(ctx, e, l).Go? && r < BATCH
    ensures var out, n := Outputs(ctx, e, l), Step(ctx, e, l).l;
            && ctx.runFlowModel(DecoderInput(e, l)).success && GoodOutputs(out)
            && n.key == out[1].blocks && n.value == out[2].blocks
            && StepLane(e, RowLogits(out[0].f32, r), out[3].i64[r], l.lanes[r], r) == (OK, n.lanes[r])
  {
    var out := Outputs(ctx, e, l);
    StepLanesOk(e, out[0].f32, out[3].i64, l.lanes, 0);
  }

  // ----- what the loop has produced so far, for any decoder

  /** A lane after `calls` decoder calls, whatever the decoder computes. */
  ghost predicate LaneShape(e: EpochInput, calls: nat, lane: Lane, r: nat)
    requires r < BATCH
  {
    var x, n := e.rows[r], |lane.made|;
    && n <= calls
    && lane.position == x.position + n
    && lane.token == (if n == 0 then x.token else lane.made[n - 1])
    && (forall t | t in lane.made :: 0 <= t < VOCAB_SIZE)
    && (lane.active != 0 ==>
          && x.active == 1 == lane.active && n == calls && lane.reason == FINISH_NONE && x.eos !in lane.made
          && lane.length == lane.position + 1 && lane.slot == NextSlot(e.table, r, lane.position))
    && (lane.active == 0 && x.active == 1 ==>
          && n > 0 && lane.made[n - 1] == x.eos && x.eos !in lane.made[..n - 1] && lane.reason == FINISH_EOS
          && lane.length == lane.position + 1 && lane.slot == NextSlot(e.table, r, lane.position))
    && (x.active != 1 ==> lane == StartLane(x))
  }

  ghost predicate Shape(e: EpochInput, l: Loop) {
    && (forall r: nat | r < BATCH :: LaneShape(e, l.calls, l.lanes[r], r))
    && (l.calls > 0 ==> exists r: nat :: r < BATCH && |l.lanes[r].made| == l.calls)
  }

  lemma LaneShapeStep(ctx: Context, e: EpochInput, l: Loop, r: nat)
    requires Step(ctx, e, l).Go? && r < BATCH && LaneShape(e, l.calls, l.lanes[r], r)
    ensures var n := Step(ctx, e, l).l;
            && LaneShape(e, n.calls, n.lanes[r], r)
            && |n.lanes[r].made| == |l.lanes[r].made| + if l.lanes[r].active == 0 then 0 else 1
  {
    StepGo(ctx, e, l, r);
    var n := Step(ctx, e, l).l;
    if l.lanes[r].active != 0 {
      var t := Greedy(RowLogits(Outputs(ctx, e, l)[0].f32, r)).value;
      assert n.lanes[r].made == l.lanes[r].made + [t];
      assert n.lanes[r].made[..l.calls] == l.lanes[r].made;
    }
  }

  lemma StepShape(ctx: Context, e: EpochInput, l: Loop, n: Loop)
    requires Shape(e, l) && Step(ctx, e, l) == Go(n) && Busy(l.lanes)
    ensures Shape(e, n)
  {
    forall r: nat | r < BATCH
      ensures LaneShape(e, n.calls, n.lanes[r], r)
      ensures |n.lanes[r].made| == |l.lanes[r].made| + if l.lanes[r].active == 0 then 0 else 1
    {
      LaneShapeStep(ctx, e, l, r);
    }
    var busy: nat :| busy < BATCH && l.lanes[busy].active != 0;
    assert LaneShape(e, l.calls, l.lanes[busy], busy);
    assert |n.lanes[busy].made| == l.calls + 1;
  }

  /** The loop ends with every lane in shape, at the bound or with every row stopped. */
  lemma {:induction false} LoopShape(ctx: Context, e: EpochInput, l: Loop)
    requires Shape(e, l) && RunLoop(ctx, e, l).Go? && l.calls <= e.maxSteps
    ensures var f := RunLoop(ctx, e, l).l;
            Shape(e, f) && f.calls <= e.maxSteps && (f.calls == e.maxSteps || !Busy(f.lanes))
    decreases e.maxSteps - l.calls
  {
    if l.calls < e.maxSteps && Busy(l.lanes) {
      StepShape(ctx, e, l, Step(ctx, e, l).l);
      LoopShape(ctx, e, Step(ctx, e, l).l);
    }
  }

  lemma StartShape(e: EpochInput, d: Device)
    requires InputStatus(e) == OK
    ensures Shape(e, Start(e, d))
  {
    forall r: nat | r < BATCH
      ensures LaneShape(e, 0, StartLane(e.rows[r]), r)
    {
      assert RowStatus(e, r) == OK;
    }
  }

  /** The tokens a row has made when an epoch of `calls` decoder calls has ended. */
  ghost predicate LaneEnd(e: EpochInput, calls: nat, made: seq<int>, r: nat)
    requires r < BATCH
  {
    var x, n := e.rows[r], |made|;
    && n <= calls
    && (x.active != 1 ==> made == [])
    && (x.active == 1 ==>
          && n >= 1
          && (n < e.maxSteps ==> made[n - 1] == x.eos)
          && x.eos !in made[..n - 1]
          && (forall t | t in made :: 0 <= t < VOCAB_SIZE))
  }

  ghost predicate EndShape(e: EpochInput, l: Loop) {
    && 1 <= e.maxSteps <= MAX_EPOCH_STEPS && l.calls <= e.maxSteps
    && (forall r: nat | r < BATCH :: LaneEnd(e, l.calls, l.lanes[r].made, r))
    && (l.calls > 0 ==> exists r: nat :: r < BATCH && |l.lanes[r].made| == l.calls)
  }

  /** How an epoch moves a row's metadata: to the last token it made, or not at all. */
  ghost predicate RowMoved(m: Meta, x: RowInput, m': Meta, made: seq<int>) {
    if x.active == 0 then m' == m
    else
      && made != []
      && m' == Meta(x.generation, made[|made| - 1], x.position + |made|, x.position + |made| + 1, 1)
  }

  lemma LaneEnds(e: EpochInput, l: Loop, r: nat)
    requires 1 <= e.maxSteps && r < BATCH && LaneShape(e, l.calls, l.lanes[r], r)
    requires l.calls == e.maxSteps || !Busy(l.lanes)
    ensures LaneEnd(e, l.calls, l.lanes[r].made, r)
    ensures e.rows[r].active == 1 ==> l.lanes[r].length == l.lanes[r].position + 1
  {
    var made := l.lanes[r].made;
    if e.rows[r].active == 1 && l.lanes[r].active != 0 {
      assert l.calls == e.maxSteps;
      assert made == made[..|made| - 1] + [made[|made| - 1]];
    }
  }

  // ----- the import

  /** The blocks one row gets from one half of a payload: per layer the payload's block, then a zero block. */
  function ImportedRow(p: seq<Byte>, base: nat, row: nat): seq<Block>
    requires |p| == PAYLOAD_BYTES && row < BATCH && base <= HALF_BLOCKS
  {
    seq<Block>(ROW_BLOCKS, i requires 0 <= i < ROW_BLOCKS =>
      if i % 2 == 0 then PayloadBlock(p, base + i / 2 * BATCH + row) else ZeroBlock())
  }

  lemma ImportedCacheRows(c: Cache, p: seq<Byte>, base: nat, row: nat)
    requires |p| == PAYLOAD_BYTES && row < BATCH && base <= HALF_BLOCKS
    ensures RowBlocks(ImportedCache(c, p, base, row), row) == ImportedRow(p, base, row)
    ensures forall r: nat | r < BATCH && r != row :: RowBlocks(ImportedCache(c, p, base, row), r) == RowBlocks(c, r)
  {
    forall i: nat | i < ROW_BLOCKS
      ensures RowBlocks(ImportedCache(c, p, base, row), row)[i] == ImportedRow(p, base, row)[i]
    {
      assert ImportedBlock(c, p, base, row, Entry(row, i)) == ImportedRow(p, base, row)[i];
    }
    forall r: nat | r < BATCH && r != row
      ensures RowBlocks(ImportedCache(c, p, base, row), r) == RowBlocks(c, r)
    {
      RowBlocksFrame(ImportedCache(c, p, base, row), c, r);
    }
  }

  ghost predicate RowUntouched(d: Device, d': Device, r: nat)
    requires r < BATCH
  {
    d'.rows[r] == d.rows[r] && RowBlocks(d'.key, r) == RowBlocks(d.key, r) && RowBlocks(d'.value, r) == RowBlocks(d.value, r)
  }

  ghost predicate RowImported(e: EpochInput, d': Device, r: nat)
    requires e.importing && e.Typed() && r < BATCH
  {
    && Importable(e.rows[r]) && d'.rows[r] == ImportedMeta(e.rows[r])
    && RowBlocks(d'.key, r) == ImportedRow(e.payload, 0, r)
    && RowBlocks(d'.value, r) == ImportedRow(e.payload, HALF_BLOCKS, r)
  }

  /** The import started at `row` gets to row `r` and takes it. */
  ghost predicate Reaches(e: EpochInput, row: nat, r: nat)
    requires r < BATCH
  {
    row <= r && Bit(e.mask, r) && forall i: nat | row <= i <= r && Bit(e.mask, i) :: Importable(e.rows[i])
  }

  /** Exactly the rows the import reaches hold their payload blocks and their arguments; the others are untouched. */
  lemma {:induction false} ImportRowsEffect(d: Device, e: EpochInput, row: nat)
    requires e.importing && e.Typed() && row <= BATCH
    ensures var (d', status) := ImportRows(d, e, row);
            && d'.ready == d.ready
            && (forall r: nat | r < BATCH :: if Reaches(e, row, r) then RowImported(e, d', r) else RowUntouched(d, d', r))
            && status == (if forall r: nat | row <= r < BATCH && Bit(e.mask, r) :: Importable(e.rows[r])
                          then OK else INVALID_METADATA)
    decreases BATCH - row
  {
    if row < BATCH {
      if !Bit(e.mask, row) {
        ImportRowsEffect(d, e, row + 1);
        assert forall r: nat | r < BATCH :: Reaches(e, row, r) == Reaches(e, row + 1, r);
      } else if Importable(e.rows[row]) {
        ImportedCacheRows(d.key, e.payload, 0, row);
        ImportedCacheRows(d.value, e.payload, HALF_BLOCKS, row);
        var d1 := ImportRow(d, e, row);
        ImportRowsEffect(d1, e, row + 1);
        var d' := ImportRows(d1, e, row + 1).0;
        forall r: nat | r < BATCH
          ensures if Reaches(e, row, r) then RowImported(e, d', r) else RowUntouched(d, d', r)
        {
          assert Reaches(e, row, r) == (r == row || Reaches(e, row + 1, r));
          if !Reaches(e, row + 1, r) { assert RowUntouched(d1, d', r); }
        }
      }
    }
  }

  predicate Selected(e: EpochInput, r: nat)
    requires r < BATCH
  {
    e.importing && Bit(e.mask, r)
  }

  /** The rows an import overwrites: all the selected ones when it completes. */
  ghost predicate Imports(e: EpochInput, r: nat)
    requires r < BATCH
  {
    e.importing && 0 < e.mask < 16 && Reaches(e, 0, r)
  }

  lemma ImportEffect(d: Device, e: EpochInput)
    requires e.Typed()
    ensures var (d', status) := Import(d, e);
            && d'.ready == d.ready
            && (forall r: nat | r < BATCH :: if Imports(e, r) then RowImported(e, d', r) else RowUntouched(d, d', r))
            && (status == OK ==> forall r: nat | r < BATCH :: Imports(e, r) <==> Selected(e, r))
            && (status == OK || status == INVALID_METADATA)
            && (status == OK <==> !e.importing || (0 < e.mask < 16 && forall r: nat | r < BATCH && Bit(e.mask, r) :: Importable(e.rows[r])))
  {
    if e.importing && 0 < e.mask < 16 { ImportRowsEffect(d, e, 0); }
  }

  lemma ClearEffect(d: Device, e: EpochInput, r: nat)
    requires r < BATCH
    ensures var d' := ClearNew(d, e);
            && d'.rows == d.rows && d'.ready == d.ready
            && (!NewLease(d.rows[r], e.rows[r]) ==> RowUntouched(d, d', r))
            && (NewLease(d.rows[r], e.rows[r]) ==>
                  RowBlocks(d'.key, r) == ZeroRow() && RowBlocks(d'.value, r) == ZeroRow())
  {
    var d' := ClearNew(d, e);
    if !NewLease(d.rows[r], e.rows[r]) {
      RowBlocksFrame(d'.key, d.key, r);
      RowBlocksFrame(d'.value, d.value, r);
    } else {
      forall i: nat | i < ROW_BLOCKS
        ensures RowBlocks(d'.key, r)[i] == ZeroBlock() == RowBlocks(d'.value, r)[i]
      {
        assert OwnerRow(Entry(r, i)) == r;
      }
    }
  }

  function ZeroRow(): seq<Block> { seq<Block>(ROW_BLOCKS, _ => ZeroBlock()) }

  lemma EpochReady(d: Device, e: EpochInput, ctx: Context)
    requires e.Typed()
    ensures Epoch(d, e, ctx).0.ready == d.ready
  {
    ImportEffect(d, e);
  }

  // ----- a successful epoch, for any decoder

  /** The state in which the decode loop of a successful epoch starts. */
  function Prepared(d: Device, e: EpochInput): Device
    requires e.Typed()
  {
    ClearNew(Import(d, e).0, e)
  }

  /** The loop a successful epoch ran, from its start to its end. */
  ghost predicate Ran(d: Device, e: EpochInput, ctx: Context, l: Loop)
    requires e.Typed()
  {
    && InputStatus(e) == OK && Import(d, e).1 == OK && Continuity(Import(d, e).0, e)
    && RunLoop(ctx, e, Start(e, Prepared(d, e))) == Go(l)
  }

  /** A successful epoch commits and reports the loop it ran. */
  lemma EpochRan(d: Device, e: EpochInput, ctx: Context, d': Device, end: Ending) returns (l: Loop)
    requires e.Typed() && Epoch(d, e, ctx) == (d', end) && end.status == OK
    ensures Ran(d, e, ctx, l) && d' == Commit(Prepared(d, e), e, l) && end.l == Finished(e, l)
  {
    l := RunLoop(ctx, e, Start(e, Prepared(d, e))).l;
  }

  /** Preparation leaves inactive rows alone. */
  lemma PreparedRow(d: Device, e: EpochInput, r: nat)
    requires e.Typed() && InputStatus(e) == OK && Import(d, e).1 == OK && r < BATCH
    ensures e.rows[r].active == 0 || e.rows[r].active == 1
    ensures e.rows[r].active == 0 ==> RowUntouched(d, Prepared(d, e), r)
  {
    assert RowStatus(e, r) == OK;
    ImportEffect(d, e);
    ClearEffect(Import(d, e).0, e, r);
    assert if Imports(e, r) then RowImported(e, Import(d, e).0, r) else RowUntouched(d, Import(d, e).0, r);
  }

  lemma RanShape(d: Device, e: EpochInput, ctx: Context, l: Loop)
    requires e.Typed() && Ran(d, e, ctx, l)
    ensures Shape(e, l) && l.calls <= e.maxSteps && (l.calls == e.maxSteps || !Busy(l.lanes))
  {
    StartShape(e, Prepared(d, e));
    LoopShape(ctx, e, Start(e, Prepared(d, e)));
  }

  lemma LaneMoved(m: Meta, m2: Meta, e: EpochInput, calls: nat, lane: Lane, r: nat)
    requires r < BATCH && (e.rows[r].active == 0 || e.rows[r].active == 1)
    requires LaneShape(e, calls, lane, r) && LaneEnd(e, calls, lane.made, r)
    requires e.rows[r].active == 0 ==> m2 == m
    ensures RowMoved(m, e.rows[r], CommitRow(m2, e.rows[r], lane), lane.made)
  {
  }

  lemma RanRow(d: Device, e: EpochInput, ctx: Context, l: Loop, r: nat)
    requires e.Typed() && Ran(d, e, ctx, l) && r < BATCH
    ensures LaneEnd(e, l.calls, l.lanes[r].made, r)
    ensures RowMoved(d.rows[r], e.rows[r], CommitRow(Prepared(d, e).rows[r], e.rows[r], l.lanes[r]), l.lanes[r].made)
  {
    RanShape(d, e, ctx, l);
    LaneEnds(e, l, r);
    PreparedRow(d, e, r);
    LaneMoved(d.rows[r], Prepared(d, e).rows[r], e, l.calls, l.lanes[r], r);
  }

  /** The row of the commit and of the reported loop. */
  lemma EndedRow(d: Device, e: EpochInput, l: Loop, r: nat)
    requires r < BATCH
    ensures Finished(e, l).lanes[r].made == l.lanes[r].made && Commit(d, e, l).rows[r] == CommitRow(d.rows[r], e.rows[r], l.lanes[r])
  {
    assert r == 0 || r == 1 || r == 2 || r == 3;
  }

  lemma EndedShape(e: EpochInput, l: Loop, ended: Loop)
    requires Shape(e, l) && 1 <= e.maxSteps <= MAX_EPOCH_STEPS && l.calls <= e.maxSteps && ended.calls == l.calls
    requires forall r: nat | r < BATCH :: ended.lanes[r].made == l.lanes[r].made && LaneEnd(e, l.calls, ended.lanes[r].made, r)
    ensures EndShape(e, ended)
  {
    if l.calls > 0 {
      var r: nat :| r < BATCH && |l.lanes[r].made| == l.calls;
      assert |ended.lanes[r].made| == l.calls;
    }
  }

  /** A successful epoch, for any decoder: each active row made between one and `maxSteps` tokens, stopped
      early only at its first EOS; some row used every decoder call; the metadata of active rows moved to the
      last token made and that of the others did not change. */
  lemma EpochShape(d: Device, e: EpochInput, ctx: Context, d': Device, end: Ending)
    requires e.Typed() && Epoch(d, e, ctx) == (d', end) && end.status == OK
    ensures InputStatus(e) == OK && EndShape(e, end.l)
    ensures forall r: nat | r < BATCH :: RowMoved(d.rows[r], e.rows[r], d'.rows[r], end.l.lanes[r].made)
  {
    var l := EpochRan(d, e, ctx, d', end);
    forall r: nat | r < BATCH
      ensures LaneEnd(e, l.calls, end.l.lanes[r].made, r) && end.l.lanes[r].made == l.lanes[r].made
      ensures RowMoved(d.rows[r], e.rows[r], d'.rows[r], end.l.lanes[r].made)
    {
      RanRow(d, e, ctx, l, r);
      EndedRow(Prepared(d, e), e, l, r);
    }
    RanShape(d, e, ctx, l);
    EndedShape(e, l, end.l);
  }

  /** What a successful epoch reports for a row: an active row finished at EOS exactly if that is its last token, and
      otherwise reached the bound and is still active; an inactive one made nothing. */
  lemma FinishReasons(d: Device, e: EpochInput, ctx: Context, d': Device, end: Ending, r: nat)
    requires e.Typed() && Epoch(d, e, ctx) == (d', end) && end.status == OK && r < BATCH
    ensures var x, lane := e.rows[r], end.l.lanes[r];
            if x.active == 1 then
              && lane.made != [] && lane.reason == (if lane.made[|lane.made| - 1] == x.eos then FINISH_EOS else FINISH_MAX_STEPS)
              && (lane.active == 1 <==> lane.reason == FINISH_MAX_STEPS) && (lane.active != 1 ==> lane.active == 0)
            else lane.made == [] && lane.active == 0 && lane.reason == (if x.length == 0 then FINISH_EMPTY else FINISH_ALREADY)
  {
    var l := EpochRan(d, e, ctx, d', end);
    RanRow(d, e, ctx, l, r);
    RanShape(d, e, ctx, l);
    PreparedRow(d, e, r);
    assert LaneShape(e, l.calls, l.lanes[r], r);
    FinishedLaneAt(e, l, r);
  }

  lemma FinishedLaneAt(e: EpochInput, l: Loop, r: nat)
    requires r < BATCH
    ensures Finished(e, l).lanes[r] == FinishedLane(e.rows[r], l.lanes[r])
  {
    assert r == 0 || r == 1 || r == 2 || r == 3;
  }
}
