/** The plain one-request decoder, and the proof that a batched epoch runs it on every row. */
module RowDecoder {
  import opened Layout
  import opened Flow
  import opened EpochSpec
  import opened EpochRows

  type Logits = l: seq<Logit> | |l| == VOCAB_SIZE witness seq<Logit>(VOCAB_SIZE, _ => NonFinite)

  /** One row's share of the key and value caches. */
  datatype RowKV = RowKV(key: seq<Block>, value: seq<Block>)

  /** The decoder network for one request: its logits and its new KV, from its KV, token and position. */
  type RowModel = (RowKV, int, int) -> (Logits, RowKV)

  /** A request between two decoder steps; its sequence length is `position + 1`. */
  datatype RowState = RowState(kv: RowKV, token: int, position: int)

  /** One greedy step of one request. */
  function NextState(model: RowModel, s: RowState): Option<RowState> {
    var (logits, kv) := model(s.kv, s.token, s.position);
    var t := Greedy(logits);
    if t.None? then None else Some(RowState(kv, t.value, s.position + 1))
  }

  /** At most `n` steps, stopping after the first EOS: the final state and the tokens made. */
  function DecodeRow(model: RowModel, s: RowState, eos: int, n: nat): (RowState, seq<int>)
    decreases n
  {
    if n == 0 || NextState(model, s).None? then (s, [])
    else
      var s1 := NextState(model, s).value;
      if s1.token == eos then (s1, [s1.token])
      else
        var (s2, rest) := DecodeRow(model, s1, eos, n - 1);
        (s2, [s1.token] + rest)
  }

  /** `n` steps whatever the tokens are. */
  function Replay(model: RowModel, s: RowState, n: nat): (RowState, seq<int>)
    decreases n
  {
    if n == 0 || NextState(model, s).None? then (s, [])
    else
      var s1 := NextState(model, s).value;
      var (s2, rest) := Replay(model, s1, n - 1);
      (s2, [s1.token] + rest)
  }

  lemma {:induction false} ReplayAppend(model: RowModel, s: RowState, n: nat, k: nat)
    requires |Replay(model, s, n).1| == n
    ensures var (s1, t1) := Replay(model, s, n);
            var (s2, t2) := Replay(model, s1, k);
            Replay(model, s, n + k) == (s2, t1 + t2)
    decreases n
  {
    if n > 0 {
      var s1 := NextState(model, s).value;
      ReplayAppend(model, s1, n - 1, k);
      var (m, t1) := Replay(model, s1, n - 1);
      var (f, t2) := Replay(model, m, k);
      assert [s1.token] + (t1 + t2) == [s1.token] + t1 + t2;
    } else {
      assert [] + Replay(model, s, k).1 == Replay(model, s, k).1;
    }
  }

  /** Stopping at EOS only cuts the replay short. */
  lemma {:induction false} DecodeIsReplay(model: RowModel, s: RowState, eos: int, n: nat)
    ensures var (s1, t) := DecodeRow(model, s, eos, n);
            |t| <= n && Replay(model, s, |t|) == (s1, t)
    decreases n
  {
    if n > 0 && NextState(model, s).Some? && NextState(model, s).value.token != eos {
      DecodeIsReplay(model, NextState(model, s).value, eos, n - 1);
    } else if n > 0 && NextState(model, s).Some? {
      var s1 := NextState(model, s).value;
      assert Replay(model, s1, 0) == (s1, []);
      assert [s1.token] + [] == [s1.token];
    }
  }

  predicate Survives(tokens: seq<int>, eos: int, n: nat) {
    |tokens| == n && eos !in tokens
  }

  lemma SurvivesNext(token: int, tokens: seq<int>, eos: int, n: nat)
    requires token != eos
    ensures Survives([token] + tokens, eos, n + 1) <==> Survives(tokens, eos, n)
  {
    assert eos in [token] + tokens <==> eos in tokens;
  }

  /** A step that does not end the row. */
  lemma DecodeNext(model: RowModel, s: RowState, eos: int, n: nat)
    requires n > 0 && NextState(model, s).Some? && NextState(model, s).value.token != eos
    ensures var s1 := NextState(model, s).value;
            var (s2, rest) := DecodeRow(model, s1, eos, n - 1);
            DecodeRow(model, s, eos, n) == (s2, [s1.token] + rest)
  {
  }

  /** Splitting a row's decoding: `n` steps and then, if the row survived them, `k` more. */
  lemma {:induction false} DecodeSplit(model: RowModel, s: RowState, eos: int, n: nat, k: nat)
    ensures var (s1, t1) := DecodeRow(model, s, eos, n);
            DecodeRow(model, s, eos, n + k) ==
            if Survives(t1, eos, n)
            then (DecodeRow(model, s1, eos, k).0, t1 + DecodeRow(model, s1, eos, k).1)
            else (s1, t1)
    decreases n
  {
    if n == 0 {
      assert [] + DecodeRow(model, s, eos, k).1 == DecodeRow(model, s, eos, k).1;
    } else if NextState(model, s).Some? && NextState(model, s).value.token != eos {
      var s1 := NextState(model, s).value;
      DecodeSplit(model, s1, eos, n - 1, k);
      DecodeNext(model, s, eos, n);
      DecodeNext(model, s, eos, n + k);
      var (m, t1) := DecodeRow(model, s1, eos, n - 1);
      SurvivesNext(s1.token, t1, eos, n - 1);
      assert [s1.token] + (t1 + DecodeRow(model, m, eos, k).1) == ([s1.token] + t1) + DecodeRow(model, m, eos, k).1;
    }
  }

  // ----- row-local decoders

  function KvOf(key: Cache, value: Cache, r: nat): RowKV
    requires r < BATCH
  {
    RowKV(RowBlocks(key, r), RowBlocks(value, r))
  }

  /** Arguments as the controller builds them on the identity block table. */
  predicate Regular(inp: ModelInput) {
    && inp.blockTable == IDENTITY_TABLE
    && forall r: nat | r < BATCH && inp.active[r] != 0 ::
         && 0 <= inp.position[r] < LOGICAL_CAPACITY && inp.length[r] == inp.position[r] + 1
         && inp.slot[r] == ComputeSlot(IDENTITY_TABLE, r, inp.position[r])
  }

  ghost predicate RowLocalAt(inp: ModelInput, out: seq<Tensor>, model: RowModel, r: nat)
    requires GoodOutputs(out) && r < BATCH
  {
    var kv' := KvOf(out[1].blocks, out[2].blocks, r);
    if inp.active[r] == 0 then kv' == KvOf(inp.key, inp.value, r)
    else (RowLogits(out[0].f32, r), kv') == model(KvOf(inp.key, inp.value, r), inp.token[r], inp.position[r])
  }

  /** The batched graph computes every active row from that row alone and keeps the KV of the others. */
  ghost predicate RowLocal(run: ModelInput -> ModelReturn, model: RowModel) {
    forall inp: ModelInput, r: nat {:trigger RowLocalAt(inp, run(inp).outputs, model, r)} |
      r < BATCH && Regular(inp) && run(inp).success && GoodOutputs(run(inp).outputs) ::
      RowLocalAt(inp, run(inp).outputs, model, r)
  }

  function View(l: Loop, r: nat): RowState
    requires r < BATCH
  {
    RowState(KvOf(l.key, l.value, r), l.lanes[r].token, l.lanes[r].position)
  }

  /** Validated arguments on the identity table. */
  ghost predicate Sound(e: EpochInput) { InputStatus(e) == OK && e.table == IDENTITY_TABLE }

  lemma RegularStep(e: EpochInput, l: Loop)
    requires Sound(e) && Shape(e, l) && l.calls < e.maxSteps
    ensures Regular(DecoderInput(e, l))
  {
    forall r: nat | r < BATCH && l.lanes[r].active != 0
      ensures 0 <= l.lanes[r].position < LOGICAL_CAPACITY
      ensures l.lanes[r].length == l.lanes[r].position + 1
      ensures l.lanes[r].slot == ComputeSlot(IDENTITY_TABLE, r, l.lanes[r].position)
    {
      RegularLane(e, l, r);
    }
    RegularInput(e, l);
  }

  lemma RegularLane(e: EpochInput, l: Loop, r: nat)
    requires Sound(e) && Shape(e, l) && l.calls < e.maxSteps && r < BATCH && l.lanes[r].active != 0
    ensures 0 <= l.lanes[r].position < LOGICAL_CAPACITY && l.lanes[r].length == l.lanes[r].position + 1
    ensures l.lanes[r].slot == ComputeSlot(IDENTITY_TABLE, r, l.lanes[r].position)
  {
    assert RowStatus(e, r) == OK;
    assert LaneShape(e, l.calls, l.lanes[r], r);
  }

  lemma RegularInput(e: EpochInput, l: Loop)
    requires e.table == IDENTITY_TABLE
    requires forall r: nat | r < BATCH && l.lanes[r].active != 0 ::
               && 0 <= l.lanes[r].position < LOGICAL_CAPACITY && l.lanes[r].length == l.lanes[r].position + 1
               && l.lanes[r].slot == ComputeSlot(IDENTITY_TABLE, r, l.lanes[r].position)
    ensures Regular(DecoderInput(e, l))
  {
    forall r: nat | r < BATCH && DecoderInput(e, l).active[r] != 0
      ensures var inp := DecoderInput(e, l);
              && 0 <= inp.position[r] < LOGICAL_CAPACITY && inp.length[r] == inp.position[r] + 1
              && inp.slot[r] == ComputeSlot(IDENTITY_TABLE, r, inp.position[r])
    {
      assert r == 0 || r == 1 || r == 2 || r == 3;
    }
  }

  /** The decoder's arguments for row `r` are the lane's. */
  lemma DecoderInputAt(e: EpochInput, l: Loop, r: nat)
    requires r < BATCH
    ensures var inp := DecoderInput(e, l);
            && inp.token[r] == l.lanes[r].token && inp.position[r] == l.lanes[r].position
            && inp.active[r] == l.lanes[r].active && inp.key == l.key && inp.value == l.value
  {
  }

  lemma LaneSamples(e: EpochInput, logits: seq<Logit>, next: int, lane: Lane, lane': Lane, r: nat)
    requires r < BATCH && logits != [] && StepLane(e, logits, next, lane, r) == (OK, lane')
    ensures if lane.active == 0 then lane' == lane
            else
              && Greedy(logits) == Some(lane'.token) && lane'.position == lane.position + 1
              && lane'.made == lane.made + [lane'.token]
              && lane'.active == (if lane'.token == e.rows[r].eos then 0 else lane.active)
  {
  }

  /** One step of a row, on its state and its lane. */
  ghost predicate RowStep(model: RowModel, eos: int, s: RowState, lane: Lane, s': RowState, lane': Lane) {
    if lane.active == 0 then lane' == lane && s' == s
    else
      && NextState(model, s) == Some(s')
      && lane'.made == lane.made + [s'.token]
      && lane'.active == (if s'.token == eos then 0 else lane.active)
  }

  lemma LaneSteps(e: EpochInput, inp: ModelInput, out: seq<Tensor>, l: Loop, n: Loop, r: nat, model: RowModel)
    requires GoodOutputs(out) && r < BATCH && RowLocalAt(inp, out, model, r)
    requires inp.token[r] == l.lanes[r].token && inp.position[r] == l.lanes[r].position
    requires inp.active[r] == l.lanes[r].active && inp.key == l.key && inp.value == l.value
    requires n.key == out[1].blocks && n.value == out[2].blocks
    requires StepLane(e, RowLogits(out[0].f32, r), out[3].i64[r], l.lanes[r], r) == (OK, n.lanes[r])
    ensures RowStep(model, e.rows[r].eos, View(l, r), l.lanes[r], View(n, r), n.lanes[r])
  {
    LaneSamples(e, RowLogits(out[0].f32, r), out[3].i64[r], l.lanes[r], n.lanes[r], r);
  }

  /** One batched step is one row step on every row. */
  lemma StepDecodes(ctx: Context, e: EpochInput, l: Loop, n: Loop, r: nat, model: RowModel)
    requires RowLocal(ctx.runFlowModel, model) && Regular(DecoderInput(e, l))
    requires Step(ctx, e, l) == Go(n) && r < BATCH
    ensures RowStep(model, e.rows[r].eos, View(l, r), l.lanes[r], View(n, r), n.lanes[r])
  {
    StepGo(ctx, e, l, r);
    DecoderInputAt(e, l, r);
    assert RowLocalAt(DecoderInput(e, l), ctx.runFlowModel(DecoderInput(e, l)).outputs, model, r);
    LaneSteps(e, DecoderInput(e, l), Outputs(ctx, e, l), l, n, r, model);
  }

  /** The rest of an epoch, at most `n` steps, for one row. */
  ghost predicate RowRest(model: RowModel, eos: int, n: nat, s: RowState, lane: Lane, s': RowState, lane': Lane) {
    if lane.active == 0 then lane' == lane && s' == s
    else
      var (t, tokens) := DecodeRow(model, s, eos, n);
      s' == t && lane'.made == lane.made + tokens
  }

  lemma RowRestStep(model: RowModel, eos: int, n: nat,
                    s: RowState, lane: Lane, s1: RowState, lane1: Lane, s2: RowState, lane2: Lane)
    requires n > 0 && RowStep(model, eos, s, lane, s1, lane1) && RowRest(model, eos, n - 1, s1, lane1, s2, lane2)
    ensures RowRest(model, eos, n, s, lane, s2, lane2)
  {
    var tokens := DecodeRow(model, s1, eos, n - 1).1;
    assert lane.made + [s1.token] + tokens == lane.made + ([s1.token] + tokens);
  }

  lemma LoopStep(ctx: Context, e: EpochInput, l: Loop, f: Loop) returns (n: Loop)
    requires RunLoop(ctx, e, l) == Go(f) && l.calls < e.maxSteps && Busy(l.lanes)
    ensures Step(ctx, e, l) == Go(n) && RunLoop(ctx, e, n) == Go(f) && n.calls == l.calls + 1
  {
    n := Step(ctx, e, l).l;
  }

  lemma StepKeeps(ctx: Context, e: EpochInput, l: Loop, n: Loop, r: nat, model: RowModel)
    requires RowLocal(ctx.runFlowModel, model) && Sound(e) && Shape(e, l) && l.calls < e.maxSteps && Busy(l.lanes)
    requires Step(ctx, e, l) == Go(n) && r < BATCH
    ensures Shape(e, n) && RowStep(model, e.rows[r].eos, View(l, r), l.lanes[r], View(n, r), n.lanes[r])
  {
    RegularStep(e, l);
    StepDecodes(ctx, e, l, n, r, model);
    StepShape(ctx, e, l, n);
  }

  lemma RowRestDone(model: RowModel, eos: int, n: nat, s: RowState, lane: Lane)
    requires n == 0 || lane.active == 0
    ensures RowRest(model, eos, n, s, lane, s, lane)
  {
    assert lane.made + [] == lane.made;
  }

  lemma {:induction false} LoopDecodes(ctx: Context, e: EpochInput, l: Loop, f: Loop, r: nat, model: RowModel)
    requires RowLocal(ctx.runFlowModel, model) && Sound(e) && Shape(e, l) && l.calls <= e.maxSteps
    requires RunLoop(ctx, e, l) == Go(f) && r < BATCH
    ensures RowRest(model, e.rows[r].eos, e.maxSteps - l.calls, View(l, r), l.lanes[r], View(f, r), f.lanes[r])
    decreases e.maxSteps - l.calls
  {
    var left := e.maxSteps - l.calls;
    if left > 0 && Busy(l.lanes) {
      var n := LoopStep(ctx, e, l, f);
      StepKeeps(ctx, e, l, n, r, model);
      LoopDecodes(ctx, e, n, f, r, model);
      assert e.maxSteps - n.calls == left - 1;
      RowRestStep(model, e.rows[r].eos, left,
                  View(l, r), l.lanes[r], View(n, r), n.lanes[r], View(f, r), f.lanes[r]);
    } else {
      assert l == f;
      assert left == 0 || l.lanes[r].active == 0;
      RowRestDone(model, e.rows[r].eos, left, View(l, r), l.lanes[r]);
    }
  }

  /** The state an active row starts an epoch in. */
  function StartState(d: Device, e: EpochInput, r: nat): RowState
    requires e.Typed() && r < BATCH
  {
    RowState(KvOf(Prepared(d, e).key, Prepared(d, e).value, r), e.rows[r].token, e.rows[r].position)
  }

  /** The state a row is left in. */
  function RowOf(d: Device, r: nat): RowState
    requires r < BATCH
  {
    RowState(KvOf(d.key, d.value, r), d.rows[r].token, d.rows[r].position)
  }

  /** The steps of row `r` in a run, from the epoch's start to its end. */
  lemma RunDecodes(d: Device, e: EpochInput, ctx: Context, l: Loop, r: nat, model: RowModel)
    requires e.Typed() && Ran(d, e, ctx, l) && RowLocal(ctx.runFlowModel, model) && e.table == IDENTITY_TABLE && r < BATCH
    ensures e.maxSteps >= 0
    ensures var s := Start(e, Prepared(d, e));
            RowRest(model, e.rows[r].eos, e.maxSteps, View(s, r), s.lanes[r], View(l, r), l.lanes[r])
  {
    StartShape(e, Prepared(d, e));
    LoopDecodes(ctx, e, Start(e, Prepared(d, e)), l, r, model);
  }

  /** A row that runs from the start of an epoch decodes its whole length. */
  lemma LoopEnded(model: RowModel, d2: Device, e: EpochInput, l: Loop, r: nat)
    requires r < BATCH && e.maxSteps >= 0
    requires RowRest(model, e.rows[r].eos, e.maxSteps, View(Start(e, d2), r), Start(e, d2).lanes[r], View(l, r), l.lanes[r])
    ensures e.rows[r].active == 0 ==> KvOf(l.key, l.value, r) == KvOf(d2.key, d2.value, r)
    ensures e.rows[r].active != 0 ==>
              (View(l, r), l.lanes[r].made) ==
              DecodeRow(model, RowState(KvOf(d2.key, d2.value, r), e.rows[r].token, e.rows[r].position), e.rows[r].eos, e.maxSteps)
  {
    assert r == 0 || r == 1 || r == 2 || r == 3;
    assert Start(e, d2).lanes[r] == StartLane(e.rows[r]);
    if e.rows[r].active != 0 {
      var tokens := DecodeRow(model, View(Start(e, d2), r), e.rows[r].eos, e.maxSteps).1;
      assert [] + tokens == tokens;
    }
  }

  /** The committed row is the lane's end. */
  lemma CommittedRow(d: Device, d2: Device, e: EpochInput, l: Loop, r: nat)
    requires r < BATCH
    ensures e.rows[r].active != 0 ==> RowOf(Commit(d2, e, l), r) == View(l, r)
    ensures e.rows[r].active == 0 && RowUntouched(d, d2, r) && KvOf(l.key, l.value, r) == KvOf(d2.key, d2.value, r) ==>
              RowUntouched(d, Commit(d2, e, l), r)
  {
    EndedRow(d2, e, l, r);
  }

  /** A batched epoch refines four one-row decoders: every active row ends in the state, and has made the
      tokens, of the one-request decoder started from its own KV; the KV of inactive rows is untouched. */
  lemma EpochDecodes(d: Device, e: EpochInput, ctx: Context, d': Device, end: Ending, model: RowModel, r: nat)
    requires e.Typed() && Epoch(d, e, ctx) == (d', end) && end.status == OK
    requires RowLocal(ctx.runFlowModel, model) && e.table == IDENTITY_TABLE && r < BATCH
    ensures if e.rows[r].active == 0 then RowUntouched(d, d', r)
            else (RowOf(d', r), end.l.lanes[r].made) == DecodeRow(model, StartState(d, e, r), e.rows[r].eos, e.maxSteps)
  {
    var l := EpochRan(d, e, ctx, d', end);
    var d2 := Prepared(d, e);
    RunDecodes(d, e, ctx, l, r, model);
    LoopEnded(model, d2, e, l, r);
    PreparedRow(d, e, r);
    EndedRow(d2, e, l, r);
    CommittedRow(d, d2, e, l, r);
  }
}
