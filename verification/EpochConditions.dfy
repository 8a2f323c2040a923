/** When a call's arguments are accepted, how a decoder call can go wrong, and what the control output says. */
module EpochConditions {
  import opened Layout
  import opened Flow
  import opened EpochSpec
  import opened EpochRows
  import opened FailureFrame

  // ----- the arguments

  /** Arguments a row can have in an epoch of `steps` steps when `first` is the first block of the row. */
  predicate RowFits(x: RowInput, steps: int, first: int) {
    && 0 <= x.token < 152064 && 0 <= x.position < 8 && x.slot == first * 128 + x.position
    && (if x.active == 1 then x.generation > 0 && x.length == x.position + 1 && x.position + steps <= 8
        else x.active == 0 && (x.length == x.position + 1 || (x.length == 0 && x.generation == 0)))
  }

  /** The row with the slot its position has. */
  function WithSlot(x: RowInput, first: int): RowInput { x.(slot := first * 128 + x.position) }

  predicate EveryRowFits(e: EpochInput) { forall r: nat | r < BATCH :: RowFits(e.rows[r], e.maxSteps, e.table[2 * r]) }

  predicate TellsBlocksApart(t: Table) {
    (forall i :: 0 <= i < 8 ==> 0 <= t[i] < 8) && forall i, j :: 0 <= i < 8 && 0 <= j < 8 && t[i] == t[j] ==> i == j
  }

  predicate EveryEosIsToken(e: EpochInput) { forall r: nat | r < BATCH :: 0 <= e.rows[r].eos < 152064 }

  lemma TableTells(t: Table)
    ensures ValidTable(t) <==> TellsBlocksApart(t)
  {
    assert TellsBlocksApart(t) ==> forall i, j :: 0 <= i < j < 8 ==> t[i] != t[j];
  }

  /** A row that does not fit is refused for its slot if it would fit with the right one, for the capacity if it would fit
      into an epoch of no steps, and for its metadata otherwise. */
  lemma RowRefused(e: EpochInput, r: nat)
    requires r < BATCH && 1 <= e.maxSteps && 0 <= e.table[2 * r] < 8
    ensures var x, first := e.rows[r], e.table[2 * r];
            && (RowStatus(e, r) == 0 <==> RowFits(x, e.maxSteps, first))
            && (RowStatus(e, r) == 204 <==> x.slot != first * 128 + x.position && RowFits(WithSlot(x, first), e.maxSteps, first))
            && (RowStatus(e, r) == 202 <==> x.active == 1 && x.position + e.maxSteps > 8 && RowFits(WithSlot(x, first), 0, first))
            && (RowStatus(e, r) in {0, 201, 202, 204})
  {
    var x := e.rows[r];
    if 0 <= x.position < LOGICAL_CAPACITY { assert x.position / BLOCK_SIZE == 0 && x.position % BLOCK_SIZE == x.position; }
  }

  /** The arguments a controller accepts, and the status of those it refuses: unsupported sampling, an unsupported graph, a
      bad bound or EOS, a bad block table, and then the first row that does not fit. */
  lemma InputAccepted(e: EpochInput)
    ensures var s := InputStatus(e);
            && (s == 205 <==> e.sampling != 0)
            && (s == 206 <==> e.sampling == 0 && e.graph != 0)
            && (s == 203 <==> e.sampling == 0 && e.graph == 0 && 1 <= e.maxSteps <= 8 && EveryEosIsToken(e) && !TellsBlocksApart(e.table))
            && (s == 0 <==> e.sampling == 0 && e.graph == 0 && 1 <= e.maxSteps <= 8 && EveryEosIsToken(e)
                            && TellsBlocksApart(e.table) && EveryRowFits(e))
            && s in {0, 201, 202, 203, 204, 205, 206}
  {
    TableTells(e.table);
    if 1 <= e.maxSteps && ValidTable(e.table) {
      forall r: nat | r < BATCH
        ensures RowStatus(e, r) == OK <==> RowFits(e.rows[r], e.maxSteps, e.table[2 * r])
        ensures RowStatus(e, r) in {0, 201, 202, 204}
      {
        RowRefused(e, r);
      }
    }
  }

  /** The first row that does not fit decides. */
  lemma {:induction false} FirstMisfit(e: EpochInput, r: nat, from: nat)
    requires from <= r < BATCH && RowStatus(e, r) != OK && forall i: nat | from <= i < r :: RowStatus(e, i) == OK
    ensures RowsStatus(e, from) == RowStatus(e, r)
    decreases r - from
  {
    if from < r { FirstMisfit(e, r, from + 1); }
  }

  /** Once everything else is in order, the first row that does not fit gives the status. */
  lemma MisfitRefused(e: EpochInput, r: nat)
    requires e.sampling == 0 && e.graph == 0 && 1 <= e.maxSteps <= 8 && EveryEosIsToken(e) && TellsBlocksApart(e.table)
    requires r < BATCH && !RowFits(e.rows[r], e.maxSteps, e.table[2 * r])
    requires forall i: nat | i < r :: RowFits(e.rows[i], e.maxSteps, e.table[2 * i])
    ensures var x, first := e.rows[r], e.table[2 * r];
            InputStatus(e) == if RowFits(WithSlot(x, first), e.maxSteps, first) then 204
                              else if x.active == 1 && x.position + e.maxSteps > 8 && RowFits(WithSlot(x, first), 0, first) then 202
                              else 201
  {
    TableTells(e.table);
    forall i: nat | i <= r
      ensures RowStatus(e, i) == OK <==> i < r
    {
      RowRefused(e, i);
    }
    RowRefused(e, r);
    FirstMisfit(e, r, 0);
  }

  // ----- one decoder call

  /** The decoder did what it must for a row: finite logits and the next position, or the same position when inactive. */
  predicate RowGoes(logits: seq<Logit>, next: int, lane: Lane) {
    if lane.active == 0 then next == lane.position
    else next == lane.position + 1 && forall i :: 0 <= i < |logits| ==> logits[i].Finite?
  }

  /** The status a row that does not go ends the step with. */
  function RowFault(logits: seq<Logit>, lane: Lane): int
    requires logits != []
  {
    if lane.active != 0 && Greedy(logits).None? then 209 else 210
  }

  lemma LaneGoes(e: EpochInput, logits: seq<Logit>, next: int, calls: nat, lane: Lane, r: nat)
    requires r < BATCH && logits != [] && LaneShape(e, calls, lane, r) && calls < e.maxSteps
    requires ValidTable(e.table) && RowStatus(e, r) == OK
    ensures StepLane(e, logits, next, lane, r).0 ==
            if RowGoes(logits, next, lane) then 0 else RowFault(logits, lane)
  {
    LaneHasSlot(e, logits, next, calls, lane, r);
  }

  /** The rows of a step decide its status: the first one that does not go, if there is one. */
  ghost predicate RowsDecide(status: int, lanes: Lanes, logits: seq<Logit>, next: Row4)
    requires |logits| == BATCH * VOCAB_SIZE
  {
    if forall r: nat | r < BATCH :: RowGoes(RowLogits(logits, r), next[r], lanes[r]) then status == 0
    else exists r: nat :: r < BATCH && !RowGoes(RowLogits(logits, r), next[r], lanes[r])
           && status == RowFault(RowLogits(logits, r), lanes[r])
           && forall i: nat | i < r :: RowGoes(RowLogits(logits, i), next[i], lanes[i])
  }

  /** The rows of one step, when the decoder returned good outputs. */
  lemma {:induction false} RowsGo(e: EpochInput, l: Loop, lanes: Lanes, logits: seq<Logit>, next: Row4, from: nat)
    requires InputStatus(e) == OK && Shape(e, l) && l.calls < e.maxSteps && |logits| == BATCH * VOCAB_SIZE && from <= BATCH
    requires forall i: nat | from <= i < BATCH :: lanes[i] == l.lanes[i]
    requires forall i: nat | i < from :: RowGoes(RowLogits(logits, i), next[i], l.lanes[i])
    ensures RowsDecide(StepLanes(e, logits, next, lanes, from).0, l.lanes, logits, next)
    decreases BATCH - from
  {
    if from < BATCH {
      assert RowStatus(e, from) == OK && LaneShape(e, l.calls, l.lanes[from], from);
      LaneGoes(e, RowLogits(logits, from), next[from], l.calls, l.lanes[from], from);
      if RowGoes(RowLogits(logits, from), next[from], l.lanes[from]) {
        RowsGo(e, l, lanes[from := StepLane(e, RowLogits(logits, from), next[from], lanes[from], from).1], logits, next, from + 1);
      }
    }
  }

  /** Every decoder call an accepted epoch makes: a call that fails, outputs of the wrong kind and a failed allocation are
      told apart, then the first row decides whose logits are not finite or whose position did not move as it must. A step
      with none of these goes on. */
  lemma StepOutcome(ctx: Context, e: EpochInput, l: Loop)
    requires InputStatus(e) == OK && Shape(e, l) && l.calls < e.maxSteps
    ensures var ret, o := ctx.runFlowModel(DecoderInput(e, l)), Step(ctx, e, l);
            var status := if o.Go? then 0 else o.status;
            && (o.Go? <==> status == 0)
            && (if !ret.success then status == 207
                else if !GoodOutputs(ret.outputs) then status == 208
                else if !ctx.stepAllocated(l.calls) then status == 211
                else RowsDecide(status, l.lanes, ret.outputs[0].f32, ret.outputs[3].i64))
  {
    var ret := ctx.runFlowModel(DecoderInput(e, l));
    if ret.success && GoodOutputs(ret.outputs) { RowsGo(e, l, l.lanes, ret.outputs[0].f32, ret.outputs[3].i64, 0); }
  }

  /** A step that goes on samples the first largest logit of every active row and takes over the decoder's caches. */
  lemma StepSamples(ctx: Context, e: EpochInput, l: Loop, r: nat)
    requires Step(ctx, e, l).Go? && r < BATCH
    ensures var out, n := Outputs(ctx, e, l), Step(ctx, e, l).l;
            && GoodOutputs(out) && out[1].blocks == n.key && out[2].blocks == n.value && n.calls == l.calls + 1
            && (l.lanes[r].active == 0 ==> n.lanes[r] == l.lanes[r])
            && (l.lanes[r].active != 0 ==>
                  var logits, made := RowLogits(out[0].f32, r), n.lanes[r].made;
                  && |made| == |l.lanes[r].made| + 1 && made[..|made| - 1] == l.lanes[r].made && 0 <= made[|made| - 1] < |logits|
                  && (forall i :: 0 <= i < |logits| ==> logits[i].Finite?)
                  && forall i :: 0 <= i < |logits| ==>
                       if i < made[|made| - 1] then logits[i].value < logits[made[|made| - 1]].value
                       else logits[i].value <= logits[made[|made| - 1]].value)
  {
    StepGo(ctx, e, l, r);
    var made := Step(ctx, e, l).l.lanes[r].made;
    if l.lanes[r].active != 0 { assert made[..|made| - 1] == l.lanes[r].made; }
  }

  // ----- the control output

  function Flag(b: bool): nat { if b then 1 else 0 }

  lemma CountedNext(s: seq<int>, x: int)
    ensures CountActive(s + [x]) == CountActive(s) + Flag(x != 0)
  {
    assert (s + [x])[..|s|] == s;
  }

  lemma CountedFlags(a: Row4)
    ensures CountActive([a[0], a[1], a[2], a[3]]) == Flag(a[0] != 0) + Flag(a[1] != 0) + Flag(a[2] != 0) + Flag(a[3] != 0)
  {
    CountedNext([], a[0]);
    CountedNext([a[0]], a[1]);
    CountedNext([a[0], a[1]], a[2]);
    CountedNext([a[0], a[1], a[2]], a[3]);
    assert [] + [a[0]] == [a[0]] && [a[0]] + [a[1]] == [a[0], a[1]] && [a[0], a[1]] + [a[2]] == [a[0], a[1], a[2]];
    assert [a[0], a[1], a[2]] + [a[3]] == [a[0], a[1], a[2], a[3]];
  }

  /** The words that do not depend on how the call ends, and the counts. */
  lemma ControlWords(e: EpochInput, end: Ending, r: nat)
    requires r < BATCH
    ensures var c, t := Control(e, end), end.l.lanes;
            && c[0] == e.maxSteps && c[1] == e.sampling && c[2] == e.graph && c[3] == end.status && c[4] == end.l.calls
            && c[6 + r] == e.rows[r].eos && c[10 + r] == e.rows[r].active && c[14 + r] == |t[r].made| && c[18 + r] == t[r].reason
            && c[24 + r] == (if e.rows[r].active == 1 then e.rows[r].generation else 0)
            && c[22] == Flag(e.rows[0].active != 0) + Flag(e.rows[1].active != 0) + Flag(e.rows[2].active != 0) + Flag(e.rows[3].active != 0)
            && c[23] == Flag(t[0].active != 0) + Flag(t[1].active != 0) + Flag(t[2].active != 0) + Flag(t[3].active != 0)
  {
    var x, t := e.rows, end.l.lanes;
    CountedFlags([x[0].active, x[1].active, x[2].active, x[3].active]);
    CountedFlags([t[0].active, t[1].active, t[2].active, t[3].active]);
  }

  /** The finish reason of a row: 1 at its EOS, 2 at the bound, 3 after a failure, 4 for an empty row and 5 for a row that had
      already finished. */
  function Reason(e: EpochInput, end: Ending, r: nat): int
    requires r < BATCH
  {
    var x, made := e.rows[r], end.l.lanes[r].made;
    if end.status != 0 then 3
    else if x.active == 1 then (if made != [] && made[|made| - 1] == x.eos then 1 else 2)
    else if x.length == 0 then 4
    else 5
  }

  lemma ReasonOfRow(d: Device, e: EpochInput, ctx: Context, d': Device, end: Ending, r: nat)
    requires e.Typed() && Epoch(d, e, ctx) == (d', end) && r < BATCH
    ensures end.l.lanes[r].reason == Reason(e, end, r)
    ensures end.l.lanes[r].active != 0 <==> if end.status == 0 then Reason(e, end, r) == 2 else e.rows[r].active != 0
  {
    if end.status == 0 {
      FinishReasons(d, e, ctx, d', end, r);
    } else {
      assert r == 0 || r == 1 || r == 2 || r == 3;
    }
  }

  /** What an epoch's control output reports: its status in word 3; on a failure every row as a fallback that is as active as
      before; on success each active row as stopped at its EOS or at the bound, and in words 22 and 23 how many rows started
      and how many of them did not end on their EOS. */
  lemma ControlOfEpoch(d: Device, e: EpochInput, ctx: Context)
    requires e.Typed()
    ensures var end := Epoch(d, e, ctx).1;
            var c := Control(e, end);
            && (forall r: nat | r < BATCH :: c[18 + r] == Reason(e, end, r) && c[10 + r] == e.rows[r].active)
            && c[22] == Flag(e.rows[0].active != 0) + Flag(e.rows[1].active != 0) + Flag(e.rows[2].active != 0) + Flag(e.rows[3].active != 0)
            && c[23] == if end.status == 0 then Flag(c[18] == 2) + Flag(c[19] == 2) + Flag(c[20] == 2) + Flag(c[21] == 2) else c[22]
  {
    var (d', end) := Epoch(d, e, ctx);
    forall r: nat | r < BATCH
      ensures end.l.lanes[r].reason == Reason(e, end, r)
      ensures end.l.lanes[r].active != 0 <==> if end.status == 0 then Reason(e, end, r) == 2 else e.rows[r].active != 0
      ensures Control(e, end)[18 + r] == Reason(e, end, r) && Control(e, end)[10 + r] == e.rows[r].active
    {
      ReasonOfRow(d, e, ctx, d', end, r);
      ControlWords(e, end, r);
    }
    ControlWords(e, end, 0);
  }
}
