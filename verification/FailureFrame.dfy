/** What a failing controller call leaves alone, and which failures the bridge's messages rule out. */
module FailureFrame {
  import opened Layout
  import opened Flow
  import opened EpochSpec
  import opened EpochRows
  import opened Bridge

  /** The status of a step is that of one of its rows. */
  lemma {:induction false} StepStatus(e: EpochInput, logits: seq<Logit>, next: Row4, lanes: Lanes, r: nat)
    requires r <= BATCH && |logits| == BATCH * VOCAB_SIZE
    ensures var s := StepLanes(e, logits, next, lanes, r).0;
            s == OK || exists i: nat :: r <= i < BATCH && s == StepLane(e, RowLogits(logits, i), next[i], lanes[i], i).0
    decreases BATCH - r
  {
    if r < BATCH {
      var (s, lane) := StepLane(e, RowLogits(logits, r), next[r], lanes[r], r);
      if s == OK {
        StepStatus(e, logits, next, lanes[r := lane], r + 1);
        var t := StepLanes(e, logits, next, lanes[r := lane], r + 1).0;
        if t != OK {
          var i: nat :| r + 1 <= i < BATCH && t == StepLane(e, RowLogits(logits, i), next[i], lanes[r := lane][i], i).0;
          assert t == StepLane(e, RowLogits(logits, i), next[i], lanes[i], i).0;
        }
      }
    }
  }

  lemma LaneHasSlot(e: EpochInput, logits: seq<Logit>, next: int, calls: nat, lane: Lane, r: nat)
    requires r < BATCH && logits != [] && LaneShape(e, calls, lane, r) && calls < e.maxSteps
    requires ValidTable(e.table) && RowStatus(e, r) == OK
    ensures StepLane(e, logits, next, lane, r).0 != CAPACITY_EXCEEDED
  {
    if lane.active != 0 && next == lane.position + 1 && next != LOGICAL_CAPACITY {
      assert 0 <= e.table[r * BLOCKS_PER_REQUEST] < PHYSICAL_BLOCKS;
      assert next / BLOCK_SIZE == 0;
    }
  }

  lemma StepHasSlots(ctx: Context, e: EpochInput, l: Loop)
    requires InputStatus(e) == OK && Shape(e, l) && l.calls < e.maxSteps && Step(ctx, e, l).Halt?
    ensures Step(ctx, e, l).status != CAPACITY_EXCEEDED
  {
    var out := Outputs(ctx, e, l);
    if GoodOutputs(out) {
      StepStatus(e, out[0].f32, out[3].i64, l.lanes, 0);
      forall i: nat | i < BATCH
        ensures StepLane(e, RowLogits(out[0].f32, i), out[3].i64[i], l.lanes[i], i).0 != CAPACITY_EXCEEDED
      {
        assert RowStatus(e, i) == OK;
        LaneHasSlot(e, RowLogits(out[0].f32, i), out[3].i64[i], l.calls, l.lanes[i], i);
      }
    }
  }

  /** A validated call never runs out of cache slots inside the loop. */
  lemma {:induction false} LoopHasSlots(ctx: Context, e: EpochInput, l: Loop)
    requires InputStatus(e) == OK && Shape(e, l)
    ensures RunLoop(ctx, e, l).Halt? ==> MODEL_ERROR <= RunLoop(ctx, e, l).status <= ALLOCATION_FAILURE
    decreases e.maxSteps - l.calls
  {
    if l.calls < e.maxSteps && Busy(l.lanes) {
      if Step(ctx, e, l).Halt? {
        StepHasSlots(ctx, e, l);
      } else {
        StepShape(ctx, e, l, Step(ctx, e, l).l);
        LoopHasSlots(ctx, e, Step(ctx, e, l).l);
      }
    }
  }

  /** How a call that is not successful ends. */
  lemma FailedState(d: Device, e: EpochInput, ctx: Context, d': Device, end: Ending)
    requires e.Typed() && Epoch(d, e, ctx) == (d', end) && end.status != OK
    ensures InputStatus(e) != OK ==> d' == d && end.status == InputStatus(e)
    ensures InputStatus(e) == OK ==>
              var d1 := Import(d, e).0;
              if Admit(d, e).1 == OK then d' == ClearNew(d1, e) else d' == d1
    ensures InputStatus(e) == OK && Import(d, e).1 == OK ==> MODEL_ERROR <= end.status <= RESIDENT_CONTINUITY
  {
    if Admit(d, e).1 == OK {
      var d2 := ClearNew(Import(d, e).0, e);
      StartShape(e, d2);
      LoopHasSlots(ctx, e, Start(e, d2));
    }
  }

  /** On any failing status: a row that is not imported keeps its metadata, and unless the call gives it a new
      generation it keeps its KV too. A continuity failure clears nothing at all. */
  lemma FailureKeeps(d: Device, e: EpochInput, ctx: Context, d': Device, end: Ending, r: nat)
    requires e.Typed() && Epoch(d, e, ctx) == (d', end) && end.status != OK && r < BATCH
    requires !Imports(e, r)
    ensures d'.rows[r] == d.rows[r]
    ensures !NewLease(d.rows[r], e.rows[r]) || end.status == RESIDENT_CONTINUITY ==> RowUntouched(d, d', r)
  {
    FailedState(d, e, ctx, d', end);
    if InputStatus(e) == OK {
      ImportEffect(d, e);
      var d1 := Import(d, e).0;
      assert RowUntouched(d, d1, r);
      ClearEffect(d1, e, r);
      if Admit(d, e).1 == OK {
        var d2 := ClearNew(d1, e);
        StartShape(e, d2);
        LoopHasSlots(ctx, e, Start(e, d2));
      }
    }
  }

  /** Messages built by the bridge never yield a validation status (201 to 206): a call either succeeds, or
      fails its continuity check, or fails inside the decoder. */
  lemma BridgeStatuses(d: Device, a: Args, ctx: Context)
    requires Code(a) == ACCEPTED && ImportMatches(a)
    ensures var status := Epoch(d, Fed(a), ctx).1.status;
            status == OK || MODEL_ERROR <= status <= RESIDENT_CONTINUITY
  {
    FedValid(a);
    var (d', end) := Epoch(d, Fed(a), ctx);
    ImportEffect(d, Fed(a));
    if end.status != OK { FailedState(d, Fed(a), ctx, d', end); }
  }
}
