/** What the ten outputs of the earlier controller are, in terms of the call and of the state it leaves. */
module OldOutputs {
  import opened Layout
  import opened Flow
  import opened EpochSpec
  import opened EpochRows
  import opened AbiReduction

  // ----- the logits history

  /** Cell `step * 4 + row` has the logits the row's token of that step was sampled from, and zeros where none was. */
  ghost predicate LogitsMatch(made: Mades, h: LogitsHistory) {
    forall i: nat | i < HISTORY :: CellMatches(made[i % BATCH], i / BATCH, h[i])
  }

  ghost predicate CellMatches(made: seq<int>, step: nat, logits: seq<Logit>) {
    if step < |made| then |logits| == VOCAB_SIZE && Greedy(logits) == Some(made[step]) else logits == ZeroRowLogits()
  }

  /** A row that has sampled keeps its logits in its own cell. */
  lemma LoggedMatches(made: Mades, h: LogitsHistory, all: seq<Logit>, step: nat, r: nat, token: int)
    requires LogitsMatch(made, h) && r < BATCH && step < MAX_EPOCH_STEPS && |all| == BATCH * VOCAB_SIZE && |made[r]| == step
    requires Greedy(RowLogits(all, r)) == Some(token)
    ensures LogitsMatch(made[r := made[r] + [token]], Logged(h, all, step, r, true))
  {
    var after, h1 := made[r := made[r] + [token]], Logged(h, all, step, r, true);
    forall i: nat | i < HISTORY
      ensures CellMatches(after[i % BATCH], i / BATCH, h1[i])
    {
      assert CellMatches(made[i % BATCH], i / BATCH, h[i]);
      CellPlace(i, step, r);
    }
  }

  lemma CellPlace(i: nat, step: nat, r: nat)
    requires r < BATCH
    ensures i == step * BATCH + r <==> i % BATCH == r && i / BATCH == step
  {
  }

  lemma MadeAt(lanes: Lanes, r: nat, lane: Lane)
    requires r < BATCH
    ensures MadeOf(lanes)[r] == lanes[r].made && MadeOf(lanes[r := lane]) == MadeOf(lanes)[r := lane.made]
  {
  }

  ghost predicate RowsMatch(o: OldRows) {
    match o
    case RowsFail(_, made, h) => LogitsMatch(made, h)
    case RowsDone(lanes, h) => LogitsMatch(MadeOf(lanes), h)
  }

  /** Row after row of one decoder call. */
  lemma {:induction false} RowsKeepLogits(e: EpochInput, all: seq<Logit>, next: Row4, lanes: Lanes, h: LogitsHistory, step: nat, r: nat)
    requires r <= BATCH && step < MAX_EPOCH_STEPS && |all| == BATCH * VOCAB_SIZE && LogitsMatch(MadeOf(lanes), h)
    requires forall i: nat | r <= i < BATCH && lanes[i].active != 0 :: |lanes[i].made| == step
    ensures RowsMatch(OldStepRows(e, all, next, lanes, h, step, r))
    decreases BATCH - r
  {
    if r < BATCH {
      var s := OldStepLane(e, RowLogits(all, r), next[r], lanes[r], r);
      var h1 := Logged(h, all, step, r, s.sampled);
      RowKeepsLogits(e, all, next, lanes, h, step, r);
      if s.status == OK { RowsKeepLogits(e, all, next, lanes[r := s.lane], h1, step, r + 1); }
    }
  }

  lemma RowKeepsLogits(e: EpochInput, all: seq<Logit>, next: Row4, lanes: Lanes, h: LogitsHistory, step: nat, r: nat)
    requires r < BATCH && step < MAX_EPOCH_STEPS && |all| == BATCH * VOCAB_SIZE && LogitsMatch(MadeOf(lanes), h)
    requires lanes[r].active != 0 ==> |lanes[r].made| == step
    ensures var s := OldStepLane(e, RowLogits(all, r), next[r], lanes[r], r);
            LogitsMatch(MadeOf(lanes[r := s.lane]), Logged(h, all, step, r, s.sampled))
  {
    var s := OldStepLane(e, RowLogits(all, r), next[r], lanes[r], r);
    MadeAt(lanes, r, s.lane);
    if s.sampled {
      LoggedMatches(MadeOf(lanes), h, all, step, r, Greedy(RowLogits(all, r)).value);
    } else {
      assert MadeOf(lanes)[r := lanes[r].made] == MadeOf(lanes);
    }
  }

  ghost predicate OutcomeMatches(o: OldOutcome) {
    match o
    case OldHalt(_, _, made, h) => LogitsMatch(made, h)
    case OldGo(l, h) => LogitsMatch(MadeOf(l.lanes), h)
  }

  lemma StepKeepsLogits(ctx: Context, e: EpochInput, l: Loop, h: LogitsHistory)
    requires l.calls < MAX_EPOCH_STEPS && Shape(e, l) && LogitsMatch(MadeOf(l.lanes), h)
    ensures OutcomeMatches(OldStep(ctx, e, l, h))
  {
    var ret := ctx.runFlowModel(DecoderInput(e, l));
    if ret.success && GoodOutputs(ret.outputs) {
      forall i: nat | i < BATCH && l.lanes[i].active != 0
        ensures |l.lanes[i].made| == l.calls
      {
        assert LaneShape(e, l.calls, l.lanes[i], i);
      }
      RowsKeepLogits(e, ret.outputs[0].f32, ret.outputs[3].i64, l.lanes, h, l.calls, 0);
    }
  }

  /** The whole loop, whether it ends or stops. */
  lemma {:induction false} LoopKeepsLogits(ctx: Context, e: EpochInput, l: Loop, h: LogitsHistory)
    requires e.maxSteps <= MAX_EPOCH_STEPS && Shape(e, l) && LogitsMatch(MadeOf(l.lanes), h)
    ensures OutcomeMatches(OldLoop(ctx, e, l, h))
    decreases e.maxSteps - l.calls
  {
    if l.calls < e.maxSteps && Busy(l.lanes) {
      StepKeepsLogits(ctx, e, l, h);
      StepsAgree(ctx, e, l, h);
      var o := OldStep(ctx, e, l, h);
      if o.OldGo? {
        StepShape(ctx, e, l, o.l);
        LoopKeepsLogits(ctx, e, o.l, o.logits);
      }
    }
  }

  lemma NothingLogged(made: Mades)
    requires made == [[], [], [], []]
    ensures LogitsMatch(made, ZeroLogits())
  {
    forall i: nat | i < HISTORY
      ensures CellMatches(made[i % BATCH], i / BATCH, ZeroLogits()[i])
    {
      assert made[i % BATCH] == [];
    }
  }

  // ----- the reply

  /** The number of tokens the control output reports for a row. */
  function Reported(control: seq<int>, r: nat): int
    requires |control| == CONTROL_OUTPUTS && r < BATCH
  {
    control[14 + r]
  }

  /** Cell by cell, the logits history is what the token history was sampled from. */
  ghost predicate HistoriesMatch(reply: OldReply)
    requires reply.OldEmitted? && |reply.control| == CONTROL_OUTPUTS
  {
    forall i: nat | i < HISTORY ::
      if i / BATCH < Reported(reply.control, i % BATCH) then
        |reply.logits[i]| == VOCAB_SIZE && Greedy(reply.logits[i]) == Some(reply.history[i])
      else reply.history[i] == -1 && reply.logits[i] == ZeroRowLogits()
  }

  /** A row's outputs are its inputs. */
  ghost predicate RowGivenBack(reply: OldReply, x: RowInput, r: nat)
    requires reply.OldEmitted? && r < BATCH
  {
    && reply.token[r] == x.token && reply.position[r] == x.position && reply.length[r] == x.length && reply.slot[r] == x.slot
    && reply.active[r] == x.active
  }

  /** A row's outputs are its new metadata, the slot of its new position, and whether it has not met its EOS. */
  ghost predicate RowMovedOn(reply: OldReply, e: EpochInput, m: Meta, r: nat)
    requires reply.OldEmitted? && r < BATCH
  {
    && m == Meta(e.rows[r].generation, reply.token[r], reply.position[r], reply.length[r], 1)
    && reply.slot[r] == (if reply.position[r] == 8 then -1 else ComputeSlot(e.table, r, reply.position[r]))
    && reply.active[r] == if reply.token[r] == e.rows[r].eos then 0 else 1
  }

  /** What an emitted reply says of the call and the state it leaves. */
  ghost predicate ReplyHolds(e: EpochInput, d': Device, reply: OldReply) {
    && reply.OldEmitted? && |reply.control| == CONTROL_OUTPUTS
    && reply.key == d'.key && reply.value == d'.value && HistoriesMatch(reply)
    && forall r: nat | r < BATCH ::
         if reply.control[3] == 0 && e.rows[r].active != 0 then RowMovedOn(reply, e, d'.rows[r], r) else RowGivenBack(reply, e.rows[r], r)
  }

  lemma HistoriesFrom(reply: OldReply, made: Mades)
    requires reply.OldEmitted? && |reply.control| == CONTROL_OUTPUTS && reply.history == OldHistory(made) && LogitsMatch(made, reply.logits)
    requires forall r: nat | r < BATCH :: Reported(reply.control, r) == |made[r]|
    ensures HistoriesMatch(reply)
  {
    forall i: nat | i < HISTORY
      ensures if i / BATCH < Reported(reply.control, i % BATCH) then
                |reply.logits[i]| == VOCAB_SIZE && Greedy(reply.logits[i]) == Some(reply.history[i])
              else reply.history[i] == -1 && reply.logits[i] == ZeroRowLogits()
    {
      assert CellMatches(made[i % BATCH], i / BATCH, reply.logits[i]);
    }
  }

  lemma ControlReports(e: EpochInput, status: int, calls: nat, made: Mades, reasons: Row4, active: Row4)
    ensures var c := OldControl(e, status, calls, made, reasons, active);
            |c| == CONTROL_OUTPUTS && c[3] == status && forall r: nat | r < BATCH :: Reported(c, r) == |made[r]|
  {
  }

  lemma FallbackHolds(d: Device, e: EpochInput, status: int, calls: nat, made: Mades, h: LogitsHistory)
    requires status != OK && LogitsMatch(made, h)
    ensures ReplyHolds(e, d, OldFallback(d, e, status, calls, made, h))
  {
    var x := e.rows;
    ControlReports(e, status, calls, made, ALL_FALLBACK, [x[0].active, x[1].active, x[2].active, x[3].active]);
    HistoriesFrom(OldFallback(d, e, status, calls, made, h), made);
  }

  /** One row after a finished loop. */
  lemma FinalRow(d: Device, e: EpochInput, l: Loop, h: LogitsHistory, r: nat)
    requires r < BATCH && LaneShape(e, l.calls, l.lanes[r], r) && (e.rows[r].active == 0 || e.rows[r].active == 1)
    requires e.rows[r].active == 1 ==> l.lanes[r].made != [] && l.lanes[r].length == l.lanes[r].position + 1
    ensures var reply := OldFinal(e, l, h);
            if e.rows[r].active != 0 then RowMovedOn(reply, e, Commit(d, e, l).rows[r], r) else RowGivenBack(reply, e.rows[r], r)
  {
    var lane := l.lanes[r];
    assert Commit(d, e, l).rows[r] == CommitRow(d.rows[r], e.rows[r], lane);
    if e.rows[r].active == 1 && lane.active != 0 { assert lane.made[|lane.made| - 1] in lane.made; }
  }

  lemma FinalHolds(d: Device, e: EpochInput, l: Loop, h: LogitsHistory)
    requires InputStatus(e) == OK && Shape(e, l) && (l.calls == e.maxSteps || !Busy(l.lanes)) && LogitsMatch(MadeOf(l.lanes), h)
    ensures ReplyHolds(e, Commit(d, e, l), OldFinal(e, l, h))
  {
    var t, x, reply := l.lanes, e.rows, OldFinal(e, l, h);
    ControlReports(e, OK, l.calls, MadeOf(t), [OldReason(x[0], t[0]), OldReason(x[1], t[1]), OldReason(x[2], t[2]), OldReason(x[3], t[3])],
                   [t[0].active, t[1].active, t[2].active, t[3].active]);
    HistoriesFrom(reply, MadeOf(t));
    forall r: nat | r < BATCH
      ensures if e.rows[r].active != 0 then RowMovedOn(reply, e, Commit(d, e, l).rows[r], r) else RowGivenBack(reply, e.rows[r], r)
    {
      assert LaneShape(e, l.calls, l.lanes[r], r) && RowStatus(e, r) == OK;
      LaneEnds(e, l, r);
      FinalRow(d, e, l, h, r);
    }
  }

  /** The old controller's ten outputs. On success the returned caches are the resident ones, and an active row's token,
      position and length are its new metadata, with the slot of that position and its activity; an inactive row's outputs
      are its inputs. A fallback returns the resident caches and all inputs. Every logged logits row is the one its token
      was sampled from. */
  lemma RepliesHold(d: Device, e: EpochInput, ctx: Context)
    requires e.Typed() && !e.importing
    ensures ReplyHolds(e, OldEpoch(d, e, ctx).0, OldEpoch(d, e, ctx).1)
  {
    if OldAdmit(d, e) != OK {
      NothingLogged([[], [], [], []]);
      FallbackHolds(d, e, OldAdmit(d, e), 0, [[], [], [], []], ZeroLogits());
    } else {
      DecodedHolds(ClearNew(d, e), e, ctx);
    }
  }

  lemma DecodedHolds(d: Device, e: EpochInput, ctx: Context)
    requires InputStatus(e) == OK
    ensures ReplyHolds(e, OldDecoded(d, e, ctx).0, OldDecoded(d, e, ctx).1)
  {
    var start := Start(e, d);
    StartShape(e, d);
    assert MadeOf(start.lanes) == [[], [], [], []];
    NothingLogged(MadeOf(start.lanes));
    LoopKeepsLogits(ctx, e, start, ZeroLogits());
    LoopsAgree(ctx, e, start, ZeroLogits());
    match OldLoop(ctx, e, start, ZeroLogits())
    case OldHalt(s, calls, made, h) => FallbackHolds(d, e, s, calls, made, h);
    case OldGo(l, h) =>
      LoopShape(ctx, e, start);
      FinalHolds(d, e, l, h);
  }

  /** A whole call: the first one decodes on the two caches it brings, every other one on the resident ones. */
  lemma CallsHold(d: Device, inputs: seq<Tensor>, ctx: Context)
    requires |inputs| == 10 && OldDecode(inputs, ctx).Some? && (d.ready || ctx.cachesAllocated)
    requires IsCache(inputs[3]) && IsCache(inputs[7])
    ensures var e := OldDecode(inputs, ctx).value.e;
            var d0 := if d.ready then d else Device(true, inputs[3].blocks, inputs[7].blocks, d.rows);
            var (d', reply) := OldProc(d, inputs, ctx);
            && !e.importing && ReplyHolds(e, d', reply)
            && d' == Epoch(d0, e, ctx).0 && reply.control == Control(e, Epoch(d0, e, ctx).1)
  {
    var i := OldDecode(inputs, ctx).value;
    RepliesHold(Boot(d, i), i.e, ctx);
    EpochsAgree(Boot(d, i), i.e, ctx);
  }
}
