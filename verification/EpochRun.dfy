/** The working state of one controller call: flat arrays as the controller keeps them, proved to be the
    per-row lanes of the specification. */
module EpochRun {
  import opened Layout
  import opened Flow
  import opened EpochSpec

  /** The tokens a row has made: the first `n` entries of its column of the step-major history. */
  function Column(history: History, r: nat, n: nat): seq<int>
    requires r < BATCH && n <= MAX_EPOCH_STEPS
  {
    seq(n, j requires 0 <= j < n => history[j * BATCH + r])
  }

  /** Row `r` has made `n` tokens: the rest of its column is still -1. */
  ghost predicate Counts(history: History, r: nat, n: int)
    requires r < BATCH
  {
    && 0 <= n <= MAX_EPOCH_STEPS
    && forall j: nat | n <= j < MAX_EPOCH_STEPS :: history[j * BATCH + r] == -1
  }

  /** Recording one token in one column. */
  lemma PutColumn(history: History, r: nat, n: nat, t: int)
    requires r < BATCH && n < MAX_EPOCH_STEPS && Counts(history, r, n)
    ensures var h: History := history[n * BATCH + r := t];
            && Counts(h, r, n + 1) && Column(h, r, n + 1) == Column(history, r, n) + [t]
            && (forall i: nat, m: nat | i < BATCH && i != r && Counts(history, i, m) ::
                  Counts(h, i, m) && Column(h, i, m) == Column(history, i, m))
  {
    var h: History := history[n * BATCH + r := t];
    forall i: nat, m: nat | i < BATCH && i != r && Counts(history, i, m)
      ensures Counts(h, i, m) && Column(h, i, m) == Column(history, i, m)
    {
      assert forall j: nat | j < MAX_EPOCH_STEPS :: h[j * BATCH + i] == history[j * BATCH + i];
    }
  }

  class Run {
    var calls: nat
    var token: Row4
    var position: Row4
    var length: Row4
    var slot: Row4
    var active: Row4
    var executed: Row4
    var reason: Row4
    var history: History

    ghost predicate Valid()
      reads this
    {
      forall r: nat | r < BATCH :: Counts(history, r, executed[r])
    }

    /** Between steps every active row has used every decoder call. */
    ghost predicate Aligned(from: nat, n: nat)
      reads this
    {
      forall r: nat | from <= r < BATCH && active[r] != 0 :: executed[r] == n
    }

    function LaneAt(r: nat): Lane
      requires r < BATCH && Counts(history, r, executed[r])
      reads this
    {
      Lane(token[r], position[r], length[r], slot[r], active[r], reason[r], Column(history, r, executed[r]))
    }

    function AllLanes(): Lanes
      requires Valid()
      reads this
    {
      [LaneAt(0), LaneAt(1), LaneAt(2), LaneAt(3)]
    }

    constructor (e: EpochInput)
      ensures Valid() && Aligned(0, 0) && calls == 0 && history == NoHistory()
      ensures AllLanes() == [StartLane(e.rows[0]), StartLane(e.rows[1]), StartLane(e.rows[2]), StartLane(e.rows[3])]
    {
      var x := e.rows;
      calls := 0;
      token := [x[0].token, x[1].token, x[2].token, x[3].token];
      position := [x[0].position, x[1].position, x[2].position, x[3].position];
      length := [x[0].length, x[1].length, x[2].length, x[3].length];
      slot := [x[0].slot, x[1].slot, x[2].slot, x[3].slot];
      active := [x[0].active, x[1].active, x[2].active, x[3].active];
      executed := [0, 0, 0, 0];
      reason := [InitialReason(x[0]), InitialReason(x[1]), InitialReason(x[2]), InitialReason(x[3])];
      history := NoHistory();
      new;
      assert forall r: nat | r < BATCH :: LaneAt(r) == StartLane(e.rows[r]);
    }

    /** The history array is the history of the lanes. */
    lemma HistoryIsLanes()
      requires Valid()
      ensures HistoryOf(AllLanes()) == history
    {
      forall i: nat | i < HISTORY
        ensures HistoryOf(AllLanes())[i] == history[i]
      {
        assert i / BATCH * BATCH + i % BATCH == i;
        assert AllLanes()[i % BATCH] == LaneAt(i % BATCH);
        assert Counts(history, i % BATCH, executed[i % BATCH]);
      }
    }

    /** Note one generated token of row `r`, at its new position. */
    method Record(r: nat, t: int, next: int)
      requires r < BATCH && 1 <= calls <= MAX_EPOCH_STEPS && Valid() && executed[r] == calls - 1
      modifies this`history, this`executed, this`position, this`token, this`length
      ensures Valid() && executed == old(executed)[r := calls]
      ensures LaneAt(r) == old(LaneAt(r)).(token := t, position := next, length := next + 1, made := old(LaneAt(r)).made + [t])
      ensures forall i: nat | i < BATCH && i != r :: LaneAt(i) == old(LaneAt(i))
    {
      PutColumn(history, r, calls - 1, t);
      history := history[(calls - 1) * BATCH + r := t];
      executed := executed[r := executed[r] + 1];
      position := position[r := next];
      token := token[r := t];
      length := length[r := next + 1];
      assert forall i: nat | i < BATCH && i != r :: Counts(old(history), i, old(executed)[i]);
    }

    /** The rest of a request's step: its next slot, and whether it stops at EOS. */
    method Settle(e: EpochInput, r: nat, t: int, next: int) returns (status: int)
      requires r < BATCH && Valid()
      modifies this`slot, this`active, this`reason
      ensures Valid()
      ensures status == if next != LOGICAL_CAPACITY && ComputeSlot(e.table, r, next) < 0 then CAPACITY_EXCEEDED else OK
      ensures LaneAt(r) == old(LaneAt(r)).(slot := NextSlot(e.table, r, next),
                                           active := if t == e.rows[r].eos then 0 else old(active[r]),
                                           reason := if t == e.rows[r].eos then FINISH_EOS else old(reason[r]))
      ensures forall i: nat | i < BATCH && i != r :: LaneAt(i) == old(LaneAt(i))
    {
      status := OK;
      if next == LOGICAL_CAPACITY {
        slot := slot[r := -1];
      } else {
        var s := ComputeSlot(e.table, r, next);
        if s < 0 { status := CAPACITY_EXCEEDED; }
        slot := slot[r := s];
      }
      if t == e.rows[r].eos {
        active := active[r := 0];
        reason := reason[r := FINISH_EOS];
      }
    }

    /** One active request of one step. */
    method StepActive(e: EpochInput, logits: seq<Logit>, next: Row4, r: nat) returns (status: int)
      requires r < BATCH && |logits| == BATCH * VOCAB_SIZE && 1 <= calls <= MAX_EPOCH_STEPS
      requires Valid() && active[r] != 0 && executed[r] == calls - 1
      modifies this
      ensures Valid() && calls == old(calls)
      ensures (status, LaneAt(r)) == StepLane(e, RowLogits(logits, r), next[r], old(LaneAt(r)), r)
      ensures forall i: nat | i < BATCH && i != r :: LaneAt(i) == old(LaneAt(i)) && executed[i] == old(executed[i])
      ensures status == OK ==> executed[r] == calls
    {
      var generated := ArgmaxFinite(logits, r);
      if generated.None? { return NON_FINITE_LOGITS; }
      if next[r] != position[r] + 1 { return POSITION_PROGRESS; }
      Record(r, generated.value, next[r]);
      status := Settle(e, r, generated.value, next[r]);
    }

    /** One request of one step. */
    method StepRequest(e: EpochInput, logits: seq<Logit>, next: Row4, r: nat) returns (status: int)
      requires r < BATCH && |logits| == BATCH * VOCAB_SIZE && 1 <= calls <= MAX_EPOCH_STEPS
      requires Valid() && (active[r] != 0 ==> executed[r] == calls - 1)
      modifies this
      ensures Valid() && calls == old(calls)
      ensures (status, LaneAt(r)) == StepLane(e, RowLogits(logits, r), next[r], old(LaneAt(r)), r)
      ensures AllLanes() == old(AllLanes())[r := LaneAt(r)]
      ensures forall i: nat | i < BATCH && i != r :: executed[i] == old(executed[i])
      ensures forall i: nat | i < BATCH && i != r :: active[i] == old(active[i])
      ensures status == OK && active[r] != 0 ==> executed[r] == calls
    {
      if active[r] == 0 {
        status := if next[r] != position[r] then POSITION_PROGRESS else OK;
      } else {
        status := StepActive(e, logits, next, r);
        forall i: nat | i < BATCH && i != r
          ensures active[i] == old(active[i])
        {
          assert LaneAt(i).active == old(LaneAt(i)).active;
        }
      }
    }

    /** All requests of one step, in row order, up to the first that fails. */
    method StepRequests(e: EpochInput, logits: seq<Logit>, next: Row4) returns (status: int)
      requires |logits| == BATCH * VOCAB_SIZE && 1 <= calls <= MAX_EPOCH_STEPS
      requires Valid() && Aligned(0, calls - 1)
      modifies this
      ensures Valid() && calls == old(calls)
      ensures (status, AllLanes()) == StepLanes(e, logits, next, old(AllLanes()), 0)
      ensures status == OK ==> Aligned(0, calls)
    {
      var request := 0;
      ghost var first := AllLanes();
      while request < BATCH
        invariant 0 <= request <= BATCH && calls == old(calls)
        invariant Valid()
        invariant forall r: nat | r < request && active[r] != 0 :: executed[r] == calls
        invariant Aligned(request, calls - 1)
        invariant StepLanes(e, logits, next, first, 0) == StepLanes(e, logits, next, AllLanes(), request)
      {
        status := StepRequest(e, logits, next, request);
        if status != OK { return; }
        request := request + 1;
      }
      status := OK;
    }

    function AsLoop(key: Cache, value: Cache): Loop
      requires Valid()
      reads this
    {
      Loop(calls, AllLanes(), key, value)
    }

    /** The arguments handed to the decoder are the lanes'. */
    lemma Arguments(e: EpochInput, key: Cache, value: Cache)
      requires Valid()
      ensures DecoderInput(e, AsLoop(key, value)) ==
              ModelInput(token, position, length, key, slot, active, e.table, value, e.tiling)
    {
      var inp := DecoderInput(e, AsLoop(key, value));
      assert inp.token == token && inp.position == position && inp.length == length;
      assert inp.slot == slot && inp.active == active;
    }

    /** One decoder call and what the controller makes of its outputs. */
    method StepOnce(e: EpochInput, ctx: Context, key0: Cache, value0: Cache) returns (status: int, key: Cache, value: Cache)
      requires Valid() && Aligned(0, calls) && calls < MAX_EPOCH_STEPS
      modifies this
      ensures Valid() && calls == old(calls) + 1 && (status == OK ==> Aligned(0, calls))
      ensures Step(ctx, e, old(AsLoop(key0, value0))) ==
              if status == OK then Go(AsLoop(key, value)) else Halt(status, calls, AllLanes())
    {
      Arguments(e, key0, value0);
      key, value := key0, value0;
      var ret := ctx.runFlowModel(ModelInput(token, position, length, key0, slot, active, e.table, value0, e.tiling));
      calls := calls + 1;
      if !ret.success { return MODEL_ERROR, key0, value0; }
      if !GoodOutputs(ret.outputs) { return INVALID_MODEL_OUTPUT, key0, value0; }
      if !ctx.stepAllocated(calls - 1) { return ALLOCATION_FAILURE, key0, value0; }
      status := StepRequests(e, ret.outputs[0].f32, ret.outputs[3].i64);
      if status == OK { key, value := ret.outputs[1].blocks, ret.outputs[2].blocks; }
    }

    /** The decode loop. */
    method DecodeAll(e: EpochInput, ctx: Context, key0: Cache, value0: Cache) returns (status: int, key: Cache, value: Cache)
      requires Valid() && Aligned(0, 0) && calls == 0 && e.maxSteps <= MAX_EPOCH_STEPS
      modifies this
      ensures Valid()
      ensures RunLoop(ctx, e, old(AsLoop(key0, value0))) ==
              if status == OK then Go(AsLoop(key, value)) else Halt(status, calls, AllLanes())
    {
      key, value := key0, value0;
      ghost var first := AsLoop(key0, value0);
      while calls < e.maxSteps
        invariant Valid() && Aligned(0, calls)
        invariant RunLoop(ctx, e, AsLoop(key, value)) == RunLoop(ctx, e, first)
      {
        assert Busy(AllLanes()) <==> CountActive(active) != 0 by {
          assert forall r: nat | r < BATCH :: AllLanes()[r].active == active[r];
        }
        if CountActive(active) == 0 { break; }
        status, key, value := StepOnce(e, ctx, key, value);
        if status != OK { return; }
      }
      status := OK;
    }
  }
}
