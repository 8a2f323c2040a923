/** A decoder that always answers with one token: what an admitted call does with it. It makes the examples of the other
    files real runs. */
module AnsweringDecoder {
  import opened Layout
  import opened Flow
  import opened EpochSpec
  import opened EpochRows

  /** What the decoder does to a cache. */
  type Writing = Cache -> Cache

  function Unwritten(): Writing { (c: Cache) => c }

  /** Logits whose first maximum is `token` in every row. */
  function Hot(token: nat): (logits: seq<Logit>)
    ensures |logits| == BATCH * VOCAB_SIZE
  {
    seq(BATCH * VOCAB_SIZE, i requires 0 <= i < BATCH * VOCAB_SIZE => Finite(if i % VOCAB_SIZE == token then 1.0 else 0.0))
  }

  function Answer(token: nat, writing: Writing, m: ModelInput): ModelReturn {
    var p, a := m.position, m.active;
    ModelReturn(true, [Float32(Hot(token)), BFloat16(writing(m.key)), BFloat16(writing(m.value)),
                       Int64([p[0] + a[0], p[1] + a[1], p[2] + a[2], p[3] + a[3]])])
  }

  /** The context in which every allocation succeeds and the decoder always answers. */
  function Always(token: nat, writing: Writing): Context {
    Context((m: ModelInput) => Answer(token, writing, m), true, true, true, (calls: nat) => true)
  }

  lemma HotRow(token: nat, r: nat)
    requires token < VOCAB_SIZE && r < BATCH
    ensures Greedy(RowLogits(Hot(token), r)) == Some(token)
  {
    var logits := RowLogits(Hot(token), r);
    forall i: nat | i < VOCAB_SIZE
      ensures logits[i] == Finite(if i == token then 1.0 else 0.0)
    {
      assert logits[i] == Hot(token)[r * VOCAB_SIZE + i];
      assert (r * VOCAB_SIZE + i) % VOCAB_SIZE == i;
    }
    assert logits[token].value == 1.0;
    var best := Greedy(logits);
    assert forall i :: 0 <= i < |logits| ==> logits[i].Finite?;
    assert best.Some?;
  }

  /** A lane after one step with this decoder. */
  function Answered(e: EpochInput, lane: Lane, r: nat, token: nat): Lane
    requires r < BATCH
  {
    if lane.active == 0 then lane else Advance(e, lane, r, token, lane.position + 1)
  }

  lemma SlotsExist(t: Table, r: nat, position: int)
    requires ValidTable(t) && r < BATCH && 0 <= position < LOGICAL_CAPACITY
    ensures ComputeSlot(t, r, position) >= 0
  {
  }

  function NextPositions(l: Loop): Row4 {
    var t := l.lanes;
    [t[0].position + t[0].active, t[1].position + t[1].active, t[2].position + t[2].active, t[3].position + t[3].active]
  }

  lemma NextPosition(l: Loop, r: nat)
    requires r < BATCH
    ensures NextPositions(l)[r] == l.lanes[r].position + l.lanes[r].active
  {
  }

  lemma AcceptedRow(e: EpochInput, r: nat)
    requires r < BATCH && InputStatus(e) == OK
    ensures RowStatus(e, r) == OK && ValidTable(e.table)
  {
  }

  lemma OneLaneAnswers(e: EpochInput, logits: seq<Logit>, next: int, calls: nat, lane: Lane, r: nat, token: nat)
    requires r < BATCH && ValidTable(e.table) && RowStatus(e, r) == OK && calls < e.maxSteps && LaneShape(e, calls, lane, r)
    requires logits != [] && Greedy(logits) == Some(token) && next == lane.position + lane.active
    ensures StepLane(e, logits, next, lane, r) == (OK, Answered(e, lane, r, token))
  {
    if lane.active != 0 && next != LOGICAL_CAPACITY { SlotsExist(e.table, r, next); }
  }

  lemma LaneAnswers(e: EpochInput, l: Loop, r: nat, token: nat)
    requires token < VOCAB_SIZE && r < BATCH && InputStatus(e) == OK && l.calls < e.maxSteps && LaneShape(e, l.calls, l.lanes[r], r)
    ensures StepLane(e, RowLogits(Hot(token), r), NextPositions(l)[r], l.lanes[r], r) == (OK, Answered(e, l.lanes[r], r, token))
  {
    var logits, next, lane := RowLogits(Hot(token), r), NextPositions(l)[r], l.lanes[r];
    assert next == lane.position + lane.active by { NextPosition(l, r); }
    assert Greedy(logits) == Some(token) by { HotRow(token, r); }
    assert ValidTable(e.table) && RowStatus(e, r) == OK by { AcceptedRow(e, r); }
    OneLaneAnswers(e, logits, next, l.calls, lane, r, token);
  }

  /** Rows that all succeed. */
  lemma {:induction false} RowsStep(e: EpochInput, logits: seq<Logit>, next: Row4, lanes: Lanes, r: nat)
    requires r <= BATCH && |logits| == BATCH * VOCAB_SIZE
    requires forall i: nat | r <= i < BATCH :: StepLane(e, RowLogits(logits, i), next[i], lanes[i], i).0 == OK
    ensures StepLanes(e, logits, next, lanes, r).0 == OK
    decreases BATCH - r
  {
    if r < BATCH {
      var lane := StepLane(e, RowLogits(logits, r), next[r], lanes[r], r).1;
      RowsStep(e, logits, next, lanes[r := lane], r + 1);
    }
  }

  lemma StepIs(e: EpochInput, l: Loop, token: nat, writing: Writing)
    ensures var (status, lanes) := StepLanes(e, Hot(token), NextPositions(l), l.lanes, 0);
            Step(Always(token, writing), e, l) ==
            if status != OK then Halt(status, l.calls + 1, lanes) else Go(Loop(l.calls + 1, lanes, writing(l.key), writing(l.value)))
  {
    var ret := Always(token, writing).runFlowModel(DecoderInput(e, l));
    assert ret == Answer(token, writing, DecoderInput(e, l));
    assert GoodOutputs(ret.outputs) && ret.outputs[0].f32 == Hot(token) && ret.outputs[3].i64 == NextPositions(l);
    assert ret.outputs[1].blocks == writing(l.key) && ret.outputs[2].blocks == writing(l.value);
  }

  lemma StepAnswers(e: EpochInput, l: Loop, token: nat, writing: Writing)
    requires token < VOCAB_SIZE && InputStatus(e) == OK && Shape(e, l) && l.calls < e.maxSteps
    ensures var o := Step(Always(token, writing), e, l);
            && o.Go? && o.l.key == writing(l.key) && o.l.value == writing(l.value)
            && forall r: nat | r < BATCH :: o.l.lanes[r] == Answered(e, l.lanes[r], r, token)
  {
    forall r: nat | r < BATCH
      ensures StepLane(e, RowLogits(Hot(token), r), NextPositions(l)[r], l.lanes[r], r) == (OK, Answered(e, l.lanes[r], r, token))
    {
      assert LaneShape(e, l.calls, l.lanes[r], r);
      LaneAnswers(e, l, r, token);
    }
    RowsStep(e, Hot(token), NextPositions(l), l.lanes, 0);
    StepLanesOk(e, Hot(token), NextPositions(l), l.lanes, 0);
    StepIs(e, l, token, writing);
  }

  ghost predicate OnlyToken(lanes: Lanes, token: nat) { forall r: nat, t | r < BATCH && t in lanes[r].made :: t == token }

  lemma {:induction false} LoopAnswers(e: EpochInput, l: Loop, token: nat, writing: Writing)
    requires token < VOCAB_SIZE && InputStatus(e) == OK && Shape(e, l) && l.calls <= e.maxSteps && OnlyToken(l.lanes, token)
    ensures var o := RunLoop(Always(token, writing), e, l); o.Go? && OnlyToken(o.l.lanes, token)
    decreases e.maxSteps - l.calls
  {
    if l.calls < e.maxSteps && Busy(l.lanes) {
      StepAnswers(e, l, token, writing);
      var n := Step(Always(token, writing), e, l).l;
      StepShape(Always(token, writing), e, l, n);
      forall r: nat, t | r < BATCH && t in n.lanes[r].made
        ensures t == token
      {
        assert n.lanes[r] == Answered(e, l.lanes[r], r, token);
        assert t in l.lanes[r].made || t == token;
      }
      LoopAnswers(e, n, token, writing);
    }
  }

  lemma DecodedAnswers(d: Device, e: EpochInput, checksum: nat, token: nat, writing: Writing)
    requires token < VOCAB_SIZE && InputStatus(e) == OK
    ensures var end := Decoded(d, e, Always(token, writing), checksum).1; end.status == OK && OnlyToken(end.l.lanes, token)
  {
    var start := Start(e, ClearNew(d, e));
    StartShape(e, ClearNew(d, e));
    assert OnlyToken(start.lanes, token);
    LoopAnswers(e, start, token, writing);
    FinishedOnly(e, RunLoop(Always(token, writing), e, start).l, token);
  }

  lemma FinishedOnly(e: EpochInput, l: Loop, token: nat)
    requires OnlyToken(l.lanes, token)
    ensures OnlyToken(Finished(e, l).lanes, token)
  {
    forall r: nat | r < BATCH
      ensures Finished(e, l).lanes[r].made == l.lanes[r].made
    {
      EndedRow(Initial(), e, l, r);
    }
  }

  /** An admitted call succeeds, and every token made is that one. */
  lemma AdmittedSucceeds(d: Device, e: EpochInput, token: nat, writing: Writing)
    requires token < VOCAB_SIZE && e.Typed() && InputStatus(e) == OK && Admit(d, e).1 == OK
    ensures var end := Epoch(d, e, Always(token, writing)).1; end.status == OK && OnlyToken(end.l.lanes, token)
  {
    DecodedAnswers(Admit(d, e).0, e, Admit(d, e).2, token, writing);
  }
}
