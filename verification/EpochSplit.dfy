/** Splitting an epoch: `n` steps and then `k` more over the rows that survived are `n + k` steps at once. */
module EpochSplit {
  import opened Layout
  import opened Flow
  import opened EpochSpec
  import opened EpochRows
  import opened RowDecoder

  /** The arguments of the second epoch for one row: its committed state if it survived, an empty row if not. */
  function NextInput(x: RowInput, m: Meta, made: seq<int>, table: Table, n: nat, r: nat): RowInput {
    if x.active == 1 && Survives(made, x.eos, n)
    then RowInput(x.generation, m.token, m.position, m.length, ComputeSlot(table, r, m.position), 1, x.eos)
    else RowInput(0, 0, 0, 0, ComputeSlot(table, r, 0), 0, x.eos)
  }

  /** The second epoch over the survivors of an `n`-step first one. */
  function NextEpoch(e: EpochInput, d1: Device, end: Ending, n: nat, k: nat): EpochInput {
    var x, m, t := e.rows, d1.rows, end.l.lanes;
    EpochInput(k, 0, 0, false, 0, [],
               [NextInput(x[0], m[0], t[0].made, e.table, n, 0), NextInput(x[1], m[1], t[1].made, e.table, n, 1),
                NextInput(x[2], m[2], t[2].made, e.table, n, 2), NextInput(x[3], m[3], t[3].made, e.table, n, 3)],
               e.table, e.tiling)
  }

  lemma {:induction false} ImportRowsSame(d: Device, e: EpochInput, e': EpochInput, row: nat)
    requires e.importing && e.Typed() && e' == e.(maxSteps := e'.maxSteps) && row <= BATCH
    ensures ImportRows(d, e, row) == ImportRows(d, e', row)
    decreases BATCH - row
  {
    if row < BATCH {
      ImportRowsSame(d, e, e', row + 1);
      if Bit(e.mask, row) { ImportRowsSame(ImportRow(d, e, row), e, e', row + 1); }
    }
  }

  /** The epoch length plays no part before the decode loop. */
  lemma PreparedSame(d: Device, e: EpochInput, e': EpochInput)
    requires e.Typed() && e' == e.(maxSteps := e'.maxSteps)
    ensures Prepared(d, e) == Prepared(d, e')
  {
    if e.importing && 0 < e.mask < 16 { ImportRowsSame(d, e, e', 0); }
    var d1 := Import(d, e).0;
    assert forall i: nat | i < CACHE_BLOCKS :: Clears(d1, e, i) == Clears(d1, e', i);
  }

  /** One row of the second epoch's arguments is in order and continues the first epoch's state. */
  lemma NextRow(e: EpochInput, n: nat, k: nat, calls: nat, m0: Meta, m: Meta, made: seq<int>, e2: EpochInput, r: nat)
    requires e.maxSteps == n + k && n >= 1 && k >= 1 && r < BATCH && RowStatus(e, r) == OK
    requires LaneEnd(e.(maxSteps := n), calls, made, r) && RowMoved(m0, e.rows[r], m, made)
    requires e2.maxSteps == k && e2.table == e.table && e2.rows[r] == NextInput(e.rows[r], m, made, e.table, n, r)
    ensures RowStatus(e2, r) == OK && Continues(m, e2.rows[r])
  {
    assert e.rows[r].active == 1 ==> made[|made| - 1] in made;
  }

  /** The second epoch passes validation and continuity: it can only stop in its own decode loop. */
  lemma NextAdmitted(d: Device, e: EpochInput, n: nat, k: nat, ctx: Context, d1: Device, end1: Ending, e2: EpochInput)
    requires e.Typed() && e.maxSteps == n + k && n >= 1 && k >= 1 && InputStatus(e) == OK
    requires Epoch(d, e.(maxSteps := n), ctx) == (d1, end1) && end1.status == OK
    requires e2 == NextEpoch(e, d1, end1, n, k)
    ensures e2.Typed() && Admit(d1, e2).1 == OK && Import(d1, e2) == (d1, OK)
  {
    EpochShape(d, e.(maxSteps := n), ctx, d1, end1);
    NextValid(d, e, n, k, d1, end1, e2);
  }

  lemma NextValid(d: Device, e: EpochInput, n: nat, k: nat, d1: Device, end1: Ending, e2: EpochInput)
    requires e.maxSteps == n + k && n >= 1 && k >= 1 && InputStatus(e) == OK && EndShape(e.(maxSteps := n), end1.l)
    requires forall r: nat | r < BATCH :: RowMoved(d.rows[r], e.rows[r], d1.rows[r], end1.l.lanes[r].made)
    requires e2 == NextEpoch(e, d1, end1, n, k)
    ensures InputStatus(e2) == OK && Continuity(d1, e2)
  {
    forall r: nat | r < BATCH
      ensures RowStatus(e2, r) == OK && Continues(d1.rows[r], e2.rows[r]) && e2.rows[r].eos == e.rows[r].eos
    {
      assert RowStatus(e, r) == OK;
      assert LaneEnd(e.(maxSteps := n), end1.l.calls, end1.l.lanes[r].made, r);
      NextRow(e, n, k, end1.l.calls, d.rows[r], d1.rows[r], end1.l.lanes[r].made, e2, r);
    }
    assert EosInRange(e) && EosInRange(e2);
  }

  /** What the split needs to know of one row of a successful epoch. */
  ghost predicate RowRan(model: RowModel, d: Device, e: EpochInput, calls: nat, d': Device, made: seq<int>, r: nat)
    requires e.Typed() && r < BATCH && e.maxSteps >= 0
  {
    && (e.rows[r].active == 0 || e.rows[r].active == 1)
    && (e.rows[r].active == 0 ==> RowUntouched(d, d', r))
    && (e.rows[r].active == 1 ==>
          (RowOf(d', r), made) == DecodeRow(model, StartState(d, e, r), e.rows[r].eos, e.maxSteps))
    && RowMoved(d.rows[r], e.rows[r], d'.rows[r], made)
    && LaneEnd(e, calls, made, r)
  }

  lemma RowsRan(model: RowModel, d: Device, e: EpochInput, ctx: Context, d': Device, end: Ending)
    requires e.Typed() && e.table == IDENTITY_TABLE && RowLocal(ctx.runFlowModel, model)
    requires Epoch(d, e, ctx) == (d', end) && end.status == OK
    ensures InputStatus(e) == OK && EndShape(e, end.l) && d'.ready == d.ready
    ensures forall r: nat | r < BATCH :: RowRan(model, d, e, end.l.calls, d', end.l.lanes[r].made, r)
  {
    EpochShape(d, e, ctx, d', end);
    EpochReady(d, e, ctx);
    forall r: nat | r < BATCH
      ensures RowRan(model, d, e, end.l.calls, d', end.l.lanes[r].made, r)
    {
      EpochDecodes(d, e, ctx, d', end, model, r);
      assert RowStatus(e, r) == OK;
      assert RowMoved(d.rows[r], e.rows[r], d'.rows[r], end.l.lanes[r].made);
      assert LaneEnd(e, end.l.calls, end.l.lanes[r].made, r);
    }
  }

  /** One row: the joint epoch makes the first epoch's tokens and then the second's, and ends in the same state. */
  lemma SplitRow(model: RowModel, d: Device, e: EpochInput, e1: EpochInput, e2: EpochInput, n: nat, k: nat,
                 d1: Device, c1: nat, t1: seq<int>, d2: Device, c2: nat, t2: seq<int>, d': Device, c: nat, t: seq<int>, r: nat)
    requires e.Typed() && e2.Typed() && e.maxSteps == n + k && e1 == e.(maxSteps := n) && e2.maxSteps == k && r < BATCH
    requires n >= 1 && k >= 1 && e2.rows[r] == NextInput(e.rows[r], d1.rows[r], t1, e.table, n, r)
    requires RowRan(model, d, e1, c1, d1, t1, r) && RowRan(model, d1, e2, c2, d2, t2, r) && RowRan(model, d, e, c, d', t, r)
    requires StartState(d, e1, r) == StartState(d, e, r)
    requires e2.rows[r].active == 1 ==> StartState(d1, e2, r) == RowOf(d1, r)
    ensures t == t1 + t2
    ensures d'.rows[r] == d2.rows[r] && KvOf(d'.key, d'.value, r) == KvOf(d2.key, d2.value, r)
  {
    var x := e.rows[r];
    if x.active == 1 {
      DecodeSplit(model, StartState(d, e, r), x.eos, n, k);
      if Survives(t1, x.eos, n) {
        assert RowOf(d', r) == RowOf(d2, r);
      } else {
        assert t1 + [] == t1;
        assert RowOf(d', r) == RowOf(d1, r);
      }
    }
  }

  lemma NextStart(d1: Device, e2: EpochInput, r: nat)
    requires e2.Typed() && Import(d1, e2) == (d1, OK) && r < BATCH && e2.rows[r].active == 1
    requires e2.rows[r].generation == d1.rows[r].generation
    requires e2.rows[r].token == d1.rows[r].token && e2.rows[r].position == d1.rows[r].position
    ensures StartState(d1, e2, r) == RowOf(d1, r)
  {
    ClearEffect(d1, e2, r);
    assert RowUntouched(d1, ClearNew(d1, e2), r);
  }

  /** The number of decoder calls adds up. */
  lemma SplitCalls(e: EpochInput, n: nat, k: nat, l1: Loop, l2: Loop, l: Loop, e2: EpochInput)
    requires e.maxSteps == n + k && n >= 1 && k >= 1 && e2.maxSteps == k
    requires EndShape(e.(maxSteps := n), l1) && EndShape(e2, l2) && EndShape(e, l)
    requires forall r: nat | r < BATCH :: l.lanes[r].made == l1.lanes[r].made + l2.lanes[r].made
    requires forall r: nat | r < BATCH :: e2.rows[r].active == (if e.rows[r].active == 1 && Survives(l1.lanes[r].made, e.rows[r].eos, n) then 1 else 0)
    ensures l.calls == l1.calls + l2.calls
  {
    forall r: nat | r < BATCH
      ensures LaneEnd(e.(maxSteps := n), l1.calls, l1.lanes[r].made, r) && LaneEnd(e2, l2.calls, l2.lanes[r].made, r)
      ensures |l.lanes[r].made| == |l1.lanes[r].made| + |l2.lanes[r].made| <= l.calls
      ensures |l2.lanes[r].made| > 0 ==> |l1.lanes[r].made| == n
    {
      assert LaneEnd(e, l.calls, l.lanes[r].made, r);
      assert LaneEnd(e2, l2.calls, l2.lanes[r].made, r);
    }
    if l2.calls > 0 {
      var r: nat :| r < BATCH && |l2.lanes[r].made| == l2.calls;
      assert |l.lanes[r].made| == n + l2.calls;
    } else if l1.calls > 0 {
      var r: nat :| r < BATCH && |l1.lanes[r].made| == l1.calls;
      assert |l.lanes[r].made| >= l1.calls;
    }
    if l.calls > 0 {
      var r: nat :| r < BATCH && |l.lanes[r].made| == l.calls;
      assert |l.lanes[r].made| == |l1.lanes[r].made| + |l2.lanes[r].made|;
    }
  }

  /** The rows' metadata and KV are the whole resident state. */
  lemma RowsDetermineDevice(a: Device, b: Device)
    requires a.ready == b.ready
    requires forall r: nat | r < BATCH :: a.rows[r] == b.rows[r] && KvOf(a.key, a.value, r) == KvOf(b.key, b.value, r)
    ensures a == b
  {
    forall r: nat | r < BATCH
      ensures RowBlocks(a.key, r) == RowBlocks(b.key, r) && RowBlocks(a.value, r) == RowBlocks(b.value, r)
    {
      assert KvOf(a.key, a.value, r) == KvOf(b.key, b.value, r);
    }
    RowsDetermineCache(a.key, b.key);
    RowsDetermineCache(a.value, b.value);
  }

  lemma SplitAll(model: RowModel, d: Device, e: EpochInput, e1: EpochInput, e2: EpochInput, n: nat, k: nat,
                 d1: Device, end1: Ending, d2: Device, end2: Ending, d': Device, end: Ending)
    requires e.Typed() && e2.Typed() && e.maxSteps == n + k && n >= 1 && k >= 1
    requires e1 == e.(maxSteps := n) && e2 == NextEpoch(e, d1, end1, n, k)
    requires EndShape(e1, end1.l) && EndShape(e2, end2.l) && EndShape(e, end.l)
    requires forall r: nat | r < BATCH :: RowRan(model, d, e1, end1.l.calls, d1, end1.l.lanes[r].made, r)
    requires forall r: nat | r < BATCH :: RowRan(model, d1, e2, end2.l.calls, d2, end2.l.lanes[r].made, r)
    requires forall r: nat | r < BATCH :: RowRan(model, d, e, end.l.calls, d', end.l.lanes[r].made, r)
    requires Prepared(d, e) == Prepared(d, e1) && Import(d1, e2) == (d1, OK) && d'.ready == d2.ready
    ensures forall r: nat | r < BATCH :: end.l.lanes[r].made == end1.l.lanes[r].made + end2.l.lanes[r].made
    ensures end.l.calls == end1.l.calls + end2.l.calls
    ensures d' == d2
  {
    forall r: nat | r < BATCH
      ensures end.l.lanes[r].made == end1.l.lanes[r].made + end2.l.lanes[r].made
      ensures d'.rows[r] == d2.rows[r] && KvOf(d'.key, d'.value, r) == KvOf(d2.key, d2.value, r)
      ensures e2.rows[r] == NextInput(e.rows[r], d1.rows[r], end1.l.lanes[r].made, e.table, n, r)
    {
      assert RowRan(model, d, e1, end1.l.calls, d1, end1.l.lanes[r].made, r);
      if e2.rows[r].active == 1 { NextStart(d1, e2, r); }
      SplitRow(model, d, e, e1, e2, n, k, d1, end1.l.calls, end1.l.lanes[r].made,
               d2, end2.l.calls, end2.l.lanes[r].made, d', end.l.calls, end.l.lanes[r].made, r);
    }
    RowsDetermineDevice(d', d2);
    SplitCalls(e, n, k, end1.l, end2.l, end.l, e2);
  }

  /** The three epochs in any contexts, when all succeed. */
  lemma SplitContexts(d: Device, e: EpochInput, n: nat, k: nat, ctx1: Context, ctx2: Context, ctx: Context,
                   d1: Device, end1: Ending, d2: Device, end2: Ending, d': Device, end: Ending, model: RowModel)
    requires e.Typed() && e.table == IDENTITY_TABLE && e.maxSteps == n + k && n >= 1 && k >= 1
    requires RowLocal(ctx1.runFlowModel, model) && RowLocal(ctx2.runFlowModel, model) && RowLocal(ctx.runFlowModel, model)
    requires Epoch(d, e.(maxSteps := n), ctx1) == (d1, end1) && end1.status == OK
    requires Epoch(d1, NextEpoch(e, d1, end1, n, k), ctx2) == (d2, end2) && end2.status == OK
    requires Epoch(d, e, ctx) == (d', end) && end.status == OK
    ensures forall r: nat | r < BATCH :: end.l.lanes[r].made == end1.l.lanes[r].made + end2.l.lanes[r].made
    ensures end.l.calls == end1.l.calls + end2.l.calls
    ensures d' == d2
  {
    var e1, e2 := e.(maxSteps := n), NextEpoch(e, d1, end1, n, k);
    RowsRan(model, d, e1, ctx1, d1, end1);
    RowsRan(model, d1, e2, ctx2, d2, end2);
    RowsRan(model, d, e, ctx, d', end);
    NextAdmitted(d, e, n, k, ctx1, d1, end1, e2);
    PreparedSame(d, e, e1);
    SplitAll(model, d, e, e1, e2, n, k, d1, end1, d2, end2, d', end);
  }

  // ----- the joint epoch succeeds only if the first one does

  lemma {:induction false} StepLanesSame(e: EpochInput, e': EpochInput, logits: seq<Logit>, next: Row4, lanes: Lanes, r: nat)
    requires e' == e.(maxSteps := e'.maxSteps) && r <= BATCH && |logits| == BATCH * VOCAB_SIZE
    ensures StepLanes(e, logits, next, lanes, r) == StepLanes(e', logits, next, lanes, r)
    decreases BATCH - r
  {
    if r < BATCH {
      var (status, lane) := StepLane(e, RowLogits(logits, r), next[r], lanes[r], r);
      assert StepLane(e', RowLogits(logits, r), next[r], lanes[r], r) == (status, lane);
      StepLanesSame(e, e', logits, next, lanes[r := lane], r + 1);
    }
  }

  /** The epoch length plays no part in a decoder call. */
  lemma StepSame(ctx: Context, e: EpochInput, e': EpochInput, l: Loop)
    requires e' == e.(maxSteps := e'.maxSteps)
    ensures Step(ctx, e, l) == Step(ctx, e', l)
  {
    assert DecoderInput(e, l) == DecoderInput(e', l);
    var ret := ctx.runFlowModel(DecoderInput(e, l));
    if GoodOutputs(ret.outputs) { StepLanesSame(e, e', ret.outputs[0].f32, ret.outputs[3].i64, l.lanes, 0); }
  }

  /** The loop of a shorter epoch is a prefix of the longer one's. */
  lemma {:induction false} LoopPrefix(ctx: Context, e: EpochInput, e': EpochInput, l: Loop)
    requires e' == e.(maxSteps := e'.maxSteps) && e'.maxSteps <= e.maxSteps && RunLoop(ctx, e, l).Go?
    ensures RunLoop(ctx, e', l).Go?
    decreases e.maxSteps - l.calls
  {
    if l.calls < e'.maxSteps && Busy(l.lanes) {
      StepSame(ctx, e, e', l);
      LoopPrefix(ctx, e, e', Step(ctx, e, l).l);
    }
  }

  lemma ShorterValid(e: EpochInput, e': EpochInput)
    requires InputStatus(e) == OK && e' == e.(maxSteps := e'.maxSteps) && 1 <= e'.maxSteps <= e.maxSteps
    ensures InputStatus(e') == OK
  {
    forall r: nat | r < BATCH
      ensures RowStatus(e', r) == OK
    {
      assert RowStatus(e, r) == OK;
    }
    assert EosInRange(e) && EosInRange(e');
  }

  lemma {:induction false} ImportStatusSame(d: Device, e: EpochInput, e': EpochInput)
    requires e.Typed() && e' == e.(maxSteps := e'.maxSteps)
    ensures Import(d, e) == Import(d, e')
  {
    if e.importing && 0 < e.mask < 16 { ImportRowsSame(d, e, e', 0); }
  }

  /** In the same context, a shorter epoch succeeds whenever the longer one does. */
  lemma ShorterSucceeds(d: Device, e: EpochInput, n: nat, ctx: Context)
    requires e.Typed() && 1 <= n <= e.maxSteps && Epoch(d, e, ctx).1.status == OK
    ensures Epoch(d, e.(maxSteps := n), ctx).1.status == OK
  {
    var e1 := e.(maxSteps := n);
    var (d', end) := Epoch(d, e, ctx);
    EpochShape(d, e, ctx, d', end);
    var l := EpochRan(d, e, ctx, d', end);
    ShorterValid(e, e1);
    ImportStatusSame(d, e, e1);
    PreparedSame(d, e, e1);
    assert Continuity(Import(d, e1).0, e1) by { assert forall r: nat | r < BATCH :: Continues(Import(d, e).0.rows[r], e.rows[r]); }
    assert Start(e, Prepared(d, e)) == Start(e1, Prepared(d, e1));
    LoopPrefix(ctx, e, e1, Start(e, Prepared(d, e)));
    ShorterRan(d, e1, ctx);
  }

  lemma ShorterRan(d: Device, e: EpochInput, ctx: Context)
    requires e.Typed() && InputStatus(e) == OK && Import(d, e).1 == OK && Continuity(Import(d, e).0, e)
    requires RunLoop(ctx, e, Start(e, Prepared(d, e))).Go?
    ensures Epoch(d, e, ctx).1.status == OK
  {
  }

  /** An epoch of `n` steps followed by one of `k` steps over the survivors gives, for every row, the same tokens, and
      together the same decoder calls and the same resident state, as one epoch of `n + k` steps. When the joint epoch
      succeeds so does the first; the second is another call, which the decoder can still refuse. */
  lemma SplitEpoch(d: Device, e: EpochInput, n: nat, k: nat, ctx: Context, ctx2: Context,
                   d2: Device, end2: Ending, d': Device, end: Ending, model: RowModel)
    requires e.Typed() && e.table == IDENTITY_TABLE && e.maxSteps == n + k && n >= 1 && k >= 1
    requires RowLocal(ctx.runFlowModel, model) && RowLocal(ctx2.runFlowModel, model)
    requires Epoch(d, e, ctx) == (d', end) && end.status == OK
    requires var (d1, end1) := Epoch(d, e.(maxSteps := n), ctx);
             Epoch(d1, NextEpoch(e, d1, end1, n, k), ctx2) == (d2, end2) && end2.status == OK
    ensures var (d1, end1) := Epoch(d, e.(maxSteps := n), ctx);
            && end1.status == OK && end.l.calls == end1.l.calls + end2.l.calls
            && forall r: nat | r < BATCH :: end.l.lanes[r].made == end1.l.lanes[r].made + end2.l.lanes[r].made
    ensures d' == d2
  {
    ShorterSucceeds(d, e, n, ctx);
    var (d1, end1) := Epoch(d, e.(maxSteps := n), ctx);
    SplitContexts(d, e, n, k, ctx, ctx2, ctx, d1, end1, d2, end2, d', end, model);
  }
}
