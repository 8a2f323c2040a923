/** From a plan to the bridge's arguments, from its outputs back to a result, and the proof that what a successful
    device epoch reports always satisfies the contract. */
module Sidecar {
  import opened Layout
  import opened Flow
  import opened EpochSpec
  import opened EpochRows
  import opened Bridge
  import opened Contract
  import opened ImportChecksum

  /** `_by_row` */
  method ByRow(p: Plan, field: PlanRequest -> int, fill: int) returns (values: seq<int>)
    requires ValidPlan(p) && p.graphBatch == BATCH
    ensures values == Scatter(p.requests, field, fill, BATCH)
  {
    values := [fill, fill, fill, fill];
    for n := 0 to |p.requests|
      invariant values == Scatter(p.requests[..n], field, fill, BATCH)
    {
      assert p.requests[n] in p.requests && ValidRequest(p, p.requests[n]);
      assert p.requests[..n + 1][..n] == p.requests[..n];
      values := values[p.requests[n].row := field(p.requests[n])];
    }
    assert p.requests[..|p.requests|] == p.requests;
  }

  function Values(p: Plan, field: PlanRequest -> int, fill: int): Row4 { Scatter(p.requests, field, fill, BATCH) }

  /** The request frame, as the bridge receives it. */
  function ArgsOf(p: Plan, kv: KvImport, tiling: Tiling): Args {
    Args(|p.requests|, p.maxSteps, Values(p, TokenOf, 0), Values(p, PositionOf, 0),
         Values(p, LengthOf, 0), Values(p, EosOf, CONFIGURED_EOS),
         Values(p, GenerationOf, 0), kv, tiling)
  }

  predicate Readable(o: BridgeOutputs) { forall r: nat | r < BATCH :: 0 <= o.executed[r] <= MAX_EPOCH_STEPS }

  /** The tokens of every request, read from its row. */
  ghost predicate TokensOf(p: Plan, o: BridgeOutputs, tokens: map<ReqId, seq<int>>)
    requires ValidPlan(p) && p.graphBatch == BATCH
  {
    && tokens.Keys == Ids(p)
    && forall q | q in p.requests ::
         && ValidRequest(p, q) && 0 <= o.executed[q.row] <= MAX_EPOCH_STEPS
         && q.id in tokens && tokens[q.id] == RowTokens(o, q.row)
  }

  /** The loop of `_execute` over the requests. A response to a plan of more than eight steps does not get here: the
      bridge refuses it. */
  method ReadTokens(p: Plan, o: BridgeOutputs) returns (ok: bool, tokens: map<ReqId, seq<int>>)
    requires ValidPlan(p) && p.graphBatch == BATCH && p.maxSteps <= MAX_EPOCH_STEPS
    ensures ok == forall q | q in p.requests :: ValidRequest(p, q) && 0 <= o.executed[q.row] <= p.maxSteps
    ensures ok ==> TokensOf(p, o, tokens)
  {
    tokens := map[];
    for n := 0 to |p.requests|
      invariant forall i :: 0 <= i < n ==> ValidRequest(p, p.requests[i]) && 0 <= o.executed[p.requests[i].row] <= p.maxSteps
      invariant tokens.Keys <= Ids(p)
      invariant forall i :: 0 <= i < n ==>
                  p.requests[i].id in tokens && tokens[p.requests[i].id] == RowTokens(o, p.requests[i].row)
    {
      var q := p.requests[n];
      assert q in p.requests && ValidRequest(p, q);
      if o.executed[q.row] < 0 || o.executed[q.row] > p.maxSteps { return false, tokens; }
      tokens := tokens[q.id := RowTokens(o, q.row)];
    }
    ok := true;
  }

  function StepsOf(tokens: map<ReqId, seq<int>>): (steps: map<ReqId, int>)
    ensures steps.Keys == tokens.Keys && forall id :: id in tokens ==> steps[id] == |tokens[id]|
  {
    map id | id in tokens :: |tokens[id]|
  }

  /** The result the backend attaches to a successful device epoch. */
  function ResultOf(o: BridgeOutputs, tokens: map<ReqId, seq<int>>, kv: KvImport, transfer: Transfer, snapshot: int): EpochResult {
    EpochResult(CONTRACT_VERSION, DeviceRoute, 0, o.modelCalls, StepsOf(tokens), o.generation,
                EpochCommitted, false, 1, 1, kv.KvPayload?, ToUint32(o.checksum), snapshot, transfer)
  }

  // ----- the device's answer to a plan

  /** A plan's arguments at a request's row and at the rows nobody has. */
  lemma ArgsAt(p: Plan, kv: KvImport, tiling: Tiling)
    requires ValidPlan(p) && p.graphBatch == BATCH
    ensures var a := ArgsOf(p, kv, tiling);
            && (forall q | q in p.requests ::
                  && ValidRequest(p, q)
                  && a.generation[q.row] == q.generation && a.token[q.row] == q.token && a.position[q.row] == q.position
                  && a.length[q.row] == q.length && a.eos[q.row] == q.eos)
            && (forall r: nat | r < BATCH :: a.generation[r] != 0 ==> exists q :: q in p.requests && q.row == r)
  {
    var a := ArgsOf(p, kv, tiling);
    assert forall q | q in p.requests :: ValidRequest(p, q);
    ScatterAt(p.requests, TokenOf, 0, BATCH);
    ScatterAt(p.requests, PositionOf, 0, BATCH);
    ScatterAt(p.requests, LengthOf, 0, BATCH);
    ScatterAt(p.requests, EosOf, CONFIGURED_EOS, BATCH);
    ScatterAt(p.requests, GenerationOf, 0, BATCH);
    forall q | q in p.requests
      ensures ValidRequest(p, q)
      ensures a.generation[q.row] == q.generation && a.token[q.row] == q.token && a.position[q.row] == q.position
      ensures a.length[q.row] == q.length && a.eos[q.row] == q.eos
    {
      var i :| 0 <= i < |p.requests| && p.requests[i] == q;
    }
    forall r: nat | r < BATCH && a.generation[r] != 0
      ensures exists q :: q in p.requests && q.row == r
    {
      assert exists i :: 0 <= i < |p.requests| && p.requests[i].row == r;
      var i :| 0 <= i < |p.requests| && p.requests[i].row == r;
      assert p.requests[i] in p.requests;
    }
  }

  /** The rows of a plan's requests are the rows that are not empty. */
  lemma LiveRowsOfPlan(p: Plan, kv: KvImport, tiling: Tiling)
    requires ValidPlan(p) && p.graphBatch == BATCH
    ensures |LiveRows(ArgsOf(p, kv, tiling))| == |p.requests|
  {
    var a := ArgsOf(p, kv, tiling);
    ArgsAt(p, kv, tiling);
    forall q | q in p.requests
      ensures 0 <= q.row < BATCH && a.generation[q.row] != 0
    {
      assert ValidRequest(p, q);
    }
    assert LiveRows(a) == RowSet(p.requests) by {
      forall r: nat | r < BATCH
        ensures r in LiveRows(a) <==> r in RowSet(p.requests)
      {
        if q :| q in p.requests && q.row == r { assert a.generation[r] != 0; }
      }
    }
    RowSetSize(p.requests);
  }

  ghost function RowSet(requests: seq<PlanRequest>): set<nat> { set q | q in requests && 0 <= q.row :: q.row }

  lemma {:induction false} RowSetSize(requests: seq<PlanRequest>)
    requires DistinctRows(requests) && forall q | q in requests :: 0 <= q.row
    ensures |RowSet(requests)| == |requests|
  {
    if requests != [] {
      var n := |requests| - 1;
      assert requests == requests[..n] + [requests[n]];
      RowSetSize(requests[..n]);
      assert requests[n].row !in RowSet(requests[..n]);
      assert RowSet(requests) == RowSet(requests[..n]) + {requests[n].row};
    }
  }

  /** A request the device can decode for that many steps from where it is. */
  ghost predicate InRange(q: PlanRequest, steps: int) {
    0 <= q.token < 152064 && 0 <= q.eos < 152064 && 0 <= q.position && q.position + steps <= 8
  }

  /** A valid plan is accepted exactly if it has one to eight steps and all its requests are in range, however many there
      are; otherwise it is a bad call or a bad row. */
  lemma PlanAccepted(p: Plan, kv: KvImport, tiling: Tiling)
    requires ValidPlan(p) && p.graphBatch == BATCH
    ensures var code := Code(ArgsOf(p, kv, tiling));
            && (code == ACCEPTED <==> 1 <= p.maxSteps <= 8 && forall q | q in p.requests :: InRange(q, p.maxSteps))
            && (code == BAD_CALL <==> !(1 <= p.maxSteps <= 8)) && code in {ACCEPTED, BAD_CALL, BAD_ROW}
  {
    var a := ArgsOf(p, kv, tiling);
    ArgsAt(p, kv, tiling);
    LiveRowsOfPlan(p, kv, tiling);
    CountIsLive(a);
    forall q | q in p.requests
      ensures 0 <= q.row < BATCH && (RowRejected(a, q.row) <==> !InRange(q, p.maxSteps))
    {
      assert ValidRequest(p, q);
    }
    assert forall r: nat | r < BATCH && RowRejected(a, r) :: exists q :: q in p.requests && q.row == r;
  }

  lemma ControlAt(e: EpochInput, end: Ending, r: nat)
    requires r < BATCH
    ensures var c := Control(e, end);
            c[3] == end.status && c[4] == end.l.calls && c[14 + r] == |end.l.lanes[r].made| && c[24 + r] == Echo(e.rows[r])
  {
  }

  lemma HistoryAt(lanes: Lanes, r: nat, step: nat)
    requires r < BATCH && step < MAX_EPOCH_STEPS && step < |lanes[r].made|
    ensures HistoryOf(lanes)[step * BATCH + r] == lanes[r].made[step]
  {
    assert (step * BATCH + r) % BATCH == r && (step * BATCH + r) / BATCH == step;
  }

  lemma TokenAt(history: History, control: seq<int>, o: BridgeOutputs, r: nat, step: nat)
    requires |control| == CONTROL_OUTPUTS && CollectedFrom(history, control, o) && r < BATCH
    requires step < Executed(control, r) <= MAX_EPOCH_STEPS
    ensures o.tokens[r * MAX_EPOCH_STEPS + step] == history[step * BATCH + r]
  {
    var i := r * MAX_EPOCH_STEPS + step;
    assert i / MAX_EPOCH_STEPS == r && i % MAX_EPOCH_STEPS == step;
    assert o.tokens[i] == RowCell(history, Executed(control, i / MAX_EPOCH_STEPS), i);
  }

  /** What the control output and the history say about row `r` of an ended call. */
  lemma RowRead(e: EpochInput, end: Ending, o: BridgeOutputs, r: nat)
    requires CollectedFrom(HistoryOf(end.l.lanes), Control(e, end), o) && r < BATCH && |end.l.lanes[r].made| <= MAX_EPOCH_STEPS
    ensures Executed(Control(e, end), r) == o.executed[r] == |end.l.lanes[r].made|
    ensures RowTokens(o, r) == end.l.lanes[r].made
    ensures o.generation[r] == Echo(e.rows[r])
  {
    ControlAt(e, end, r);
    var control, made := Control(e, end), end.l.lanes[r].made;
    assert Executed(control, r) == |made|;
    assert control[14..18][r] == control[14 + r] && control[24..28][r] == control[24 + r];
    forall step: nat | step < |made|
      ensures RowTokens(o, r)[step] == made[step]
    {
      TokenAt(HistoryOf(end.l.lanes), control, o, r, step);
      HistoryAt(end.l.lanes, r, step);
    }
  }

  /** A call that emits anything has its allocations. */
  lemma EmittedDecodes(d: Device, a: Args, ctx: Context)
    requires Code(a) == ACCEPTED && ImportMatches(a) && Proc(d, Messages(a), ctx).1.Emitted?
    ensures Decode(Messages(a), ctx) == Some(Fed(a))
  {
    FedVariant(a);
    assert ControlMessage(a)[6] == Variant(a);
    assert Messages(a)[7] == Int32(ControlMessage(a));
    assert Decode(Messages(a), ctx).Some?;
    FedDecodes(a, ctx);
  }

  /** An emitted reply as an ended epoch. */
  lemma EmittedEpoch(d: Device, a: Args, ctx: Context, d': Device, history: History, control: seq<int>) returns (end: Ending)
    requires Code(a) == ACCEPTED && ImportMatches(a) && Proc(d, Messages(a), ctx) == (d', Emitted(history, control))
    ensures Epoch(d.(ready := true), Fed(a), ctx) == (d', end)
    ensures history == HistoryOf(end.l.lanes) && control == Control(Fed(a), end)
  {
    EmittedDecodes(d, a, ctx);
    end := Epoch(d.(ready := true), Fed(a), ctx).1;
  }

  /** What a request of the plan gets from a successful epoch. */
  ghost predicate Served(p: Plan, q: PlanRequest, calls: nat, tokens: seq<int>) {
    && 1 <= |tokens| <= p.maxSteps && |tokens| <= calls
    && (|tokens| < p.maxSteps ==> tokens[|tokens| - 1] == q.eos)
    && q.eos !in tokens[..|tokens| - 1]
    && forall t | t in tokens :: 0 <= t < VOCAB_SIZE
  }

  lemma RequestServed(p: Plan, kv: KvImport, tiling: Tiling, end: Ending, o: BridgeOutputs, q: PlanRequest)
    requires ValidPlan(p) && p.graphBatch == BATCH && q in p.requests
    requires var a := ArgsOf(p, kv, tiling);
             Code(a) == ACCEPTED && EndShape(Fed(a), end.l) && CollectedFrom(HistoryOf(end.l.lanes), Control(Fed(a), end), o)
    ensures ValidRequest(p, q) && 0 <= o.executed[q.row] <= MAX_EPOCH_STEPS
    ensures RowTokens(o, q.row) == end.l.lanes[q.row].made && Served(p, q, end.l.calls, RowTokens(o, q.row))
    ensures o.generation[q.row] == q.generation
  {
    var a := ArgsOf(p, kv, tiling);
    ArgsAt(p, kv, tiling);
    assert ValidRequest(p, q);
    assert Fed(a).rows[q.row] == FedRow(a, q.row);
    assert LaneEnd(Fed(a), end.l.calls, end.l.lanes[q.row].made, q.row);
    RowRead(Fed(a), end, o, q.row);
  }

  lemma RowIdle(p: Plan, kv: KvImport, tiling: Tiling, end: Ending, o: BridgeOutputs, r: nat)
    requires ValidPlan(p) && p.graphBatch == BATCH && r < BATCH && !exists q :: q in p.requests && q.row == r
    requires var a := ArgsOf(p, kv, tiling);
             Code(a) == ACCEPTED && EndShape(Fed(a), end.l) && CollectedFrom(HistoryOf(end.l.lanes), Control(Fed(a), end), o)
    ensures end.l.lanes[r].made == [] && o.executed[r] == 0 && o.generation[r] == 0
  {
    var a := ArgsOf(p, kv, tiling);
    ArgsAt(p, kv, tiling);
    assert a.generation[r] == 0;
    assert Fed(a).rows[r] == FedRow(a, r);
    assert LaneEnd(Fed(a), end.l.calls, end.l.lanes[r].made, r);
    RowRead(Fed(a), end, o, r);
  }

  lemma GenerationsEcho(p: Plan, o: BridgeOutputs)
    requires ValidPlan(p) && p.graphBatch == BATCH
    requires forall q | q in p.requests :: ValidRequest(p, q) && o.generation[q.row] == q.generation
    requires forall r: nat | r < BATCH :: (exists q :: q in p.requests && q.row == r) || o.generation[r] == 0
    ensures o.generation == RowGenerations(p)
  {
    ScatterAt(p.requests, GenerationOf, 0, p.graphBatch);
    forall r: nat | r < BATCH
      ensures o.generation[r] == RowGenerations(p)[r]
    {
      if q :| q in p.requests && q.row == r {
        var i :| 0 <= i < |p.requests| && p.requests[i] == q;
      } else {
        assert forall i :: 0 <= i < |p.requests| ==> p.requests[i] in p.requests;
      }
    }
  }

  /** The number of decoder calls is the largest step count. */
  lemma CallsAreMax(p: Plan, counts: seq<nat>, calls: nat, steps: map<ReqId, int>)
    requires ValidPlan(p) && p.graphBatch == BATCH == |counts| && steps.Keys == Ids(p)
    requires forall q | q in p.requests :: ValidRequest(p, q) && steps[q.id] == counts[q.row] && 1 <= counts[q.row] <= calls
    requires forall r: nat | r < BATCH :: (exists q :: q in p.requests && q.row == r) || counts[r] == 0
    requires calls > 0 ==> calls in counts
    ensures IsMax(steps, calls)
  {
    assert p.requests[0] in p.requests;
    var r :| 0 <= r < BATCH && counts[r] == calls;
    var q :| q in p.requests && q.row == r;
    assert q.id in Ids(p) && steps[q.id] == calls;
    forall id | id in steps
      ensures steps[id] <= calls
    {
      var t :| t in p.requests && t.id == id;
    }
  }

  function Counts(l: Loop): (c: seq<nat>)
    ensures |c| == BATCH && forall r: nat | r < BATCH :: c[r] == |l.lanes[r].made|
  {
    [|l.lanes[0].made|, |l.lanes[1].made|, |l.lanes[2].made|, |l.lanes[3].made|]
  }

  lemma LanesAreMax(p: Plan, l: Loop, o: BridgeOutputs, tokens: map<ReqId, seq<int>>)
    requires ValidPlan(p) && p.graphBatch == BATCH && Readable(o) && TokensOf(p, o, tokens)
    requires forall q | q in p.requests ::
               && ValidRequest(p, q)
               && RowTokens(o, q.row) == l.lanes[q.row].made && 1 <= |RowTokens(o, q.row)| <= l.calls
    requires forall r: nat | r < BATCH :: (exists q :: q in p.requests && q.row == r) || l.lanes[r].made == []
    requires l.calls > 0 ==> exists r: nat :: r < BATCH && |l.lanes[r].made| == l.calls
    ensures IsMax(StepsOf(tokens), l.calls)
  {
    forall q | q in p.requests
      ensures ValidRequest(p, q) && q.id in StepsOf(tokens)
      ensures StepsOf(tokens)[q.id] == Counts(l)[q.row] && 1 <= Counts(l)[q.row] <= l.calls
    {
      assert tokens[q.id] == RowTokens(o, q.row);
    }
    CallsAreMax(p, Counts(l), l.calls, StepsOf(tokens));
  }

  /** The device's answer in terms of the plan. */
  lemma AllServed(p: Plan, kv: KvImport, tiling: Tiling, end: Ending, o: BridgeOutputs)
    requires ValidPlan(p) && p.graphBatch == BATCH
    requires var a := ArgsOf(p, kv, tiling);
             Code(a) == ACCEPTED && EndShape(Fed(a), end.l) && CollectedFrom(HistoryOf(end.l.lanes), Control(Fed(a), end), o)
    ensures Readable(o) && o.generation == RowGenerations(p)
    ensures forall q | q in p.requests ::
              && ValidRequest(p, q)
              && RowTokens(o, q.row) == end.l.lanes[q.row].made && Served(p, q, end.l.calls, RowTokens(o, q.row))
    ensures forall r: nat | r < BATCH :: (exists q :: q in p.requests && q.row == r) || end.l.lanes[r].made == []
  {
    forall q | q in p.requests
      ensures ValidRequest(p, q) && 0 <= o.executed[q.row] <= MAX_EPOCH_STEPS
      ensures RowTokens(o, q.row) == end.l.lanes[q.row].made && Served(p, q, end.l.calls, RowTokens(o, q.row))
      ensures o.generation[q.row] == q.generation
    {
      RequestServed(p, kv, tiling, end, o, q);
    }
    forall r: nat | r < BATCH && !exists q :: q in p.requests && q.row == r
      ensures end.l.lanes[r].made == [] && o.executed[r] == 0 && o.generation[r] == 0
    {
      RowIdle(p, kv, tiling, end, o, r);
    }
    GenerationsEcho(p, o);
  }

  /** Imports are asked for exactly when a payload is sent, and it is the one whose checksum the result quotes. */
  ghost predicate Carries(p: Plan, kv: KvImport, transfer: Transfer, snapshot: int) {
    && (kv.KvPayload? <==> exists q :: q in p.requests && q.importRequired)
    && (kv.NoImport? <==> transfer.NoTransfer?)
    && (kv.KvPayload? && transfer.HostSnapshot? ==> snapshot == PayloadChecksum(kv.payload, kv.mask))
  }

  /** Every status-0 answer of the device, decoded by the bridge and the sidecar, satisfies the contract -- an
      import's exactly when its payload's checksum is not zero. */
  lemma SuccessMeetsContract(d: Device, p: Plan, kv: KvImport, tiling: Tiling, ctx: Context, d': Device, history: History,
                             control: seq<int>, o: BridgeOutputs, tokens: map<ReqId, seq<int>>, transfer: Transfer, snapshot: int)
    requires ValidPlan(p) && p.graphBatch == BATCH && Carries(p, kv, transfer, snapshot)
    requires var a := ArgsOf(p, kv, tiling);
             Code(a) == ACCEPTED && ImportMatches(a) && Proc(d, Messages(a), ctx) == (d', Emitted(history, control))
    requires |control| == CONTROL_OUTPUTS && control[3] == OK && CollectedFrom(history, control, o)
    requires Readable(o) && TokensOf(p, o, tokens)
    ensures Accepts(ResultOf(o, tokens, kv, transfer, snapshot), p, tokens) <==>
            (kv.KvPayload? ==> PayloadChecksum(kv.payload, kv.mask) != 0)
  {
    var a := ArgsOf(p, kv, tiling);
    var end := EmittedEpoch(d, a, ctx, d', history, control);
    ControlAt(Fed(a), end, 0);
    EpochMeetsContract(d, p, kv, tiling, ctx, end, o, tokens, transfer, snapshot);
  }

  /** The same for an epoch on allocated caches. */
  lemma EpochMeetsContract(d: Device, p: Plan, kv: KvImport, tiling: Tiling, ctx: Context, end: Ending, o: BridgeOutputs,
                           tokens: map<ReqId, seq<int>>, transfer: Transfer, snapshot: int)
    requires ValidPlan(p) && p.graphBatch == BATCH && Carries(p, kv, transfer, snapshot)
    requires var a := ArgsOf(p, kv, tiling);
             && Code(a) == ACCEPTED && ImportMatches(a) && end == Epoch(d.(ready := true), Fed(a), ctx).1 && end.status == OK
             && CollectedFrom(HistoryOf(end.l.lanes), Control(Fed(a), end), o)
    requires Readable(o) && TokensOf(p, o, tokens)
    ensures Accepts(ResultOf(o, tokens, kv, transfer, snapshot), p, tokens) <==>
            (kv.KvPayload? ==> PayloadChecksum(kv.payload, kv.mask) != 0)
  {
    var a := ArgsOf(p, kv, tiling);
    ControlAt(Fed(a), end, 0);
    EpochShape(d.(ready := true), Fed(a), ctx, Epoch(d.(ready := true), Fed(a), ctx).0, end);
    AllServed(p, kv, tiling, end, o);
    LanesAreMax(p, end.l, o, tokens);
    if kv.KvPayload? { QuotedChecksum(d, a, ctx, end, o); }
    ContractHolds(p, kv, o, tokens, transfer, snapshot, end.l.calls);
  }

  lemma QuotedChecksum(d: Device, a: Args, ctx: Context, end: Ending, o: BridgeOutputs)
    requires Code(a) == ACCEPTED && ImportMatches(a) && a.kv.KvPayload?
    requires end == Epoch(d.(ready := true), Fed(a), ctx).1 && o.checksum == Control(Fed(a), end)[5]
    ensures ToUint32(o.checksum) == PayloadChecksum(a.kv.payload, a.kv.mask)
  {
    FedValid(a);
    ImportEffect(d.(ready := true), Fed(a));
    ControlCarriesChecksum(d.(ready := true), Fed(a), ctx);
  }

  lemma ContractHolds(p: Plan, kv: KvImport, o: BridgeOutputs, tokens: map<ReqId, seq<int>>, transfer: Transfer, snapshot: int, calls: nat)
    requires ValidPlan(p) && p.graphBatch == BATCH && Carries(p, kv, transfer, snapshot)
    requires Readable(o) && TokensOf(p, o, tokens) && o.generation == RowGenerations(p) && o.modelCalls == calls
    requires forall q | q in p.requests :: ValidRequest(p, q) && Served(p, q, calls, RowTokens(o, q.row))
    requires IsMax(StepsOf(tokens), calls)
    requires kv.KvPayload? ==> ToUint32(o.checksum) == PayloadChecksum(kv.payload, kv.mask)
    ensures Accepts(ResultOf(o, tokens, kv, transfer, snapshot), p, tokens) <==>
            (kv.KvPayload? ==> PayloadChecksum(kv.payload, kv.mask) != 0)
  {
    var result := ResultOf(o, tokens, kv, transfer, snapshot);
    forall q | q in p.requests
      ensures q.id in tokens && RequestAccepted(result, p, q, tokens[q.id])
    {
      assert Served(p, q, calls, RowTokens(o, q.row));
    }
  }

  /** The bridge never finds a bad count in a successful answer. */
  lemma SuccessCollects(d: Device, a: Args, ctx: Context, d': Device, history: History, control: seq<int>)
    requires Code(a) == ACCEPTED && ImportMatches(a) && Proc(d, Messages(a), ctx) == (d', Emitted(history, control))
    requires |control| == CONTROL_OUTPUTS && control[3] == OK
    ensures CountsInRange(a.maxSteps, control)
  {
    var end := EmittedEpoch(d, a, ctx, d', history, control);
    ControlAt(Fed(a), end, 0);
    EpochShape(d.(ready := true), Fed(a), ctx, d', end);
    forall r: nat | r < BATCH
      ensures 0 <= Executed(control, r) <= a.maxSteps
    {
      ControlAt(Fed(a), end, r);
      assert LaneEnd(Fed(a), end.l.calls, end.l.lanes[r].made, r);
    }
  }

  // ----- host fallback

  /** `attach_host_fallback_result` */
  function FallbackResult(p: Plan): EpochResult {
    EpochResult(CONTRACT_VERSION, HostFallback, 0, 1, map id | id in Ids(p) :: 1, [], EpochPrepared, true, 0, 0, false, 0, 0, NoTransfer)
  }

  /** After one host step the fallback result satisfies the contract exactly when the host still owns every request. */
  lemma FallbackMeetsContract(p: Plan, sampled: map<ReqId, seq<int>>)
    requires ValidPlan(p) && p.maxSteps >= 1 && sampled.Keys == Ids(p) && forall id | id in sampled :: |sampled[id]| == 1
    ensures Accepts(FallbackResult(p), p, sampled) <==> forall q | q in p.requests :: q.owner.HostOwned?
  {
    forall q | q in p.requests
      ensures q.id in sampled && RequestAccepted(FallbackResult(p), p, q, sampled[q.id])
    {
      assert q.id in Ids(p);
    }
  }

  // ----- the snapshot file

  datatype SnapshotFile = SnapshotFile(id: int, mask: int, generations: seq<int>, payload: seq<Byte>, checksum: int)

  /** `ResidentKVSnapshot.validate` */
  predicate ValidSnapshot(f: SnapshotFile) {
    && f.id > 0 && |f.generations| == BATCH && 0 < f.mask < 16
    && (forall r: nat | r < BATCH :: f.generations[r] >= 0 && (Bit(f.mask, r) <==> f.generations[r] > 0))
    && |f.payload| == PAYLOAD_BYTES && f.checksum == PayloadChecksum(f.payload, f.mask)
  }

  /** `ReadTransfer` */
  predicate FileAccepted(f: SnapshotFile, id: int, generations: seq<int>)
    requires |f.generations| == BATCH == |generations|
  {
    && id != 0 && f.id == id && |f.payload| == PAYLOAD_BYTES && 0 < f.mask < 16 && f.checksum != 0
    && forall r: nat | r < BATCH ::
         if Bit(f.mask, r) then f.generations[r] > 0 && f.generations[r] == generations[r] else f.generations[r] == 0
  }

  /** A snapshot the host has validated is read by the bridge exactly when its generations are the call's and its
      checksum is not zero; what is read can be imported. */
  lemma SnapshotAccepted(f: SnapshotFile, generations: seq<int>)
    requires ValidSnapshot(f) && |generations| == BATCH
    ensures FileAccepted(f, f.id, generations) <==>
            f.checksum != 0 && forall r: nat | r < BATCH && Bit(f.mask, r) :: f.generations[r] == generations[r]
    ensures forall a: Args ::
              FileAccepted(f, f.id, generations) && a.generation == generations && a.kv == KvPayload(f.mask, f.payload) ==> ImportMatches(a)
  {
    if FileAccepted(f, f.id, generations) {
      forall r: nat | r < BATCH && Bit(f.mask, r)
        ensures generations[r] > 0 && f.generations[r] == generations[r]
      {
        assert f.generations[r] > 0;
      }
    } else if forall r: nat | r < BATCH && Bit(f.mask, r) :: f.generations[r] == generations[r] {
      assert forall r: nat | r < BATCH :: Bit(f.mask, r) <==> f.generations[r] > 0;
    }
  }
}
