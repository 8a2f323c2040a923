/** What a resident epoch plan and its result must satisfy before either side acts on them. */
module Contract {
  import opened Layout

  const CONTRACT_VERSION := 3

  type ReqId = string

  datatype Owner = HostOwned | DeviceOwned

  datatype PlanRequest = PlanRequest(
    id: ReqId, row: int, generation: int, token: int, position: int, length: int, eos: int,
    blocks: seq<int>, owner: Owner, importRequired: bool)

  datatype Plan = Plan(
    version: int, graphBatch: int, maxSteps: int, capacity: int, requests: seq<PlanRequest>, activeMask: seq<int>)

  /** Per-row values of a field: the last request of a row wins, rows without a request get `fill`. */
  function Scatter(requests: seq<PlanRequest>, field: PlanRequest -> int, fill: int, rows: nat): (s: seq<int>)
    ensures |s| == rows
  {
    if requests == [] then seq(rows, _ => fill)
    else
      var last := requests[|requests| - 1];
      var before := Scatter(requests[..|requests| - 1], field, fill, rows);
      if 0 <= last.row < rows then before[last.row := field(last)] else before
  }

  predicate DistinctRows(requests: seq<PlanRequest>) {
    forall i, j :: 0 <= i < j < |requests| ==> requests[i].row != requests[j].row
  }

  /** With one request a row, every request finds its own value in its row and the other rows hold the fill. */
  lemma {:induction false} ScatterAt(requests: seq<PlanRequest>, field: PlanRequest -> int, fill: int, rows: nat)
    requires DistinctRows(requests) && forall q | q in requests :: 0 <= q.row < rows
    ensures var s := Scatter(requests, field, fill, rows);
            && (forall i :: 0 <= i < |requests| ==> s[requests[i].row] == field(requests[i]))
            && (forall r :: 0 <= r < rows && (forall i :: 0 <= i < |requests| ==> requests[i].row != r) ==> s[r] == fill)
  {
    if requests != [] {
      var n := |requests| - 1;
      ScatterAt(requests[..n], field, fill, rows);
      var before := Scatter(requests[..n], field, fill, rows);
      var s := Scatter(requests, field, fill, rows);
      assert requests[n] in requests;
      forall i | 0 <= i < |requests|
        ensures s[requests[i].row] == field(requests[i])
      {
        if i < n { assert requests[..n][i] == requests[i] && requests[i] in requests; }
      }
      forall r | 0 <= r < rows && (forall i :: 0 <= i < |requests| ==> requests[i].row != r)
        ensures s[r] == fill
      {
        assert forall i :: 0 <= i < n ==> requests[..n][i].row != r;
        assert before[r] == fill;
      }
    }
  }

  function TokenOf(q: PlanRequest): int { q.token }
  function PositionOf(q: PlanRequest): int { q.position }
  function LengthOf(q: PlanRequest): int { q.length }
  function EosOf(q: PlanRequest): int { q.eos }
  function GenerationOf(q: PlanRequest): int { q.generation }
  function One(q: PlanRequest): int { 1 }

  function RowGenerations(p: Plan): seq<int>
    requires p.graphBatch >= 0
  {
    Scatter(p.requests, GenerationOf, 0, p.graphBatch)
  }

  function ExpectedActive(p: Plan): seq<int>
    requires p.graphBatch >= 0
  {
    Scatter(p.requests, One, 0, p.graphBatch)
  }

  predicate ValidRequest(p: Plan, q: PlanRequest) {
    && q.generation > 0
    && 0 <= q.row < p.graphBatch
    && q.length == q.position + 1
    && (q.importRequired ==> q.owner.HostOwned?)
    && q.position + p.maxSteps <= p.capacity
  }

  predicate DistinctIds(requests: seq<PlanRequest>) {
    forall i, j :: 0 <= i < j < |requests| ==> requests[i].id != requests[j].id
  }

  predicate DistinctGenerations(requests: seq<PlanRequest>) {
    forall i, j :: 0 <= i < j < |requests| ==> requests[i].generation != requests[j].generation
  }

  predicate ValidPlan(p: Plan) {
    && p.version == CONTRACT_VERSION
    && (p.graphBatch == 1 || p.graphBatch == 2 || p.graphBatch == 4)
    && 1 <= |p.requests| <= p.graphBatch
    && DistinctIds(p.requests) && DistinctRows(p.requests) && DistinctGenerations(p.requests)
    && (forall q | q in p.requests :: ValidRequest(p, q))
    && p.activeMask == ExpectedActive(p)
  }

  /** Whether no element occurs twice, as `len(set(..)) == len(..)` decides it. */
  method Unique<T(==)>(xs: seq<T>) returns (ok: bool)
    ensures ok == forall i, j :: 0 <= i < j < |xs| ==> xs[i] != xs[j]
  {
    var seen: set<T> := {};
    for n := 0 to |xs|
      invariant forall x :: x in seen <==> x in xs[..n]
      invariant forall i, j :: 0 <= i < j < n ==> xs[i] != xs[j]
    {
      if xs[n] in seen {
        ghost var i :| 0 <= i < n && xs[..n][i] == xs[n];
        return false;
      }
      seen := seen + {xs[n]};
    }
    ok := true;
  }

  /** Whether one field tells the requests apart. */
  method UniqueBy<T(==)>(requests: seq<PlanRequest>, field: PlanRequest -> T) returns (ok: bool)
    ensures ok == forall i, j :: 0 <= i < j < |requests| ==> field(requests[i]) != field(requests[j])
  {
    var values := seq(|requests|, i requires 0 <= i < |requests| => field(requests[i]));
    ok := Unique(values);
    if !ok {
      ghost var i, j :| 0 <= i < j < |values| && values[i] == values[j];
      assert field(requests[i]) == field(requests[j]);
    } else {
      assert forall i :: 0 <= i < |values| ==> values[i] == field(requests[i]);
    }
  }

  /** The loop of `validate` over the requests: their checks, and the rows they make active. */
  method CheckRequests(p: Plan) returns (ok: bool, expected: seq<int>)
    requires p.graphBatch >= 0
    ensures ok == forall q | q in p.requests :: ValidRequest(p, q)
    ensures ok ==> expected == ExpectedActive(p)
  {
    expected := seq<int>(p.graphBatch, _ => 0);
    for n := 0 to |p.requests|
      invariant |expected| == p.graphBatch
      invariant forall i :: 0 <= i < n ==> ValidRequest(p, p.requests[i])
      invariant expected == Scatter(p.requests[..n], One, 0, p.graphBatch)
    {
      var q := p.requests[n];
      if q.generation <= 0 || q.row < 0 || q.row >= p.graphBatch || q.length != q.position + 1
         || (q.importRequired && !q.owner.HostOwned?) || q.position + p.maxSteps > p.capacity
      {
        assert q in p.requests && !ValidRequest(p, q);
        return false, expected;
      }
      assert p.requests[..n + 1][..n] == p.requests[..n];
      expected := expected[q.row := 1];
    }
    assert p.requests[..|p.requests|] == p.requests;
    ok := true;
  }

  /** `validate`: true when it raises nothing. */
  method Validate(p: Plan) returns (ok: bool)
    ensures ok == ValidPlan(p)
  {
    if p.version != CONTRACT_VERSION { return false; }
    if p.graphBatch != 1 && p.graphBatch != 2 && p.graphBatch != 4 { return false; }
    if |p.requests| < 1 || |p.requests| > p.graphBatch || |p.activeMask| != p.graphBatch { return false; }
    var idsUnique := UniqueBy(p.requests, (q: PlanRequest) => q.id);
    var rowsUnique := UniqueBy(p.requests, (q: PlanRequest) => q.row);
    var generationsUnique := UniqueBy(p.requests, (q: PlanRequest) => q.generation);
    if !idsUnique || !rowsUnique || !generationsUnique { return false; }
    var requestsOk, expected := CheckRequests(p);
    ok := requestsOk && expected == p.activeMask;
  }

  predicate HostReplaySafe(p: Plan) { forall q | q in p.requests :: q.owner.HostOwned? }

  // ----- results

  datatype Route = DeviceRoute | HostFallback
  datatype CommitState = EpochPrepared | EpochExecuting | EpochCommitted
  datatype Transfer = NoTransfer | HostSnapshot | DeviceIpc

  datatype EpochResult = EpochResult(
    version: int, route: Route, status: int, modelCalls: int, steps: map<ReqId, int>, rowGenerations: seq<int>,
    commit: CommitState, fallbackSafe: bool, feedCalls: int, fetchCalls: int,
    kvImported: bool, importChecksum: int, snapshotChecksum: int, transfer: Transfer)

  function Ids(p: Plan): set<ReqId> { set q | q in p.requests :: q.id }

  predicate IsMax(m: map<ReqId, int>, v: int) {
    (exists k :: k in m && m[k] == v) && forall k :: k in m ==> m[k] <= v
  }

  /** The transfer mode a result claims; an import without one counts as a snapshot. */
  function ClaimedTransfer(r: EpochResult): Transfer {
    if r.kvImported && r.transfer.NoTransfer? then HostSnapshot else r.transfer
  }

  predicate RequestAccepted(r: EpochResult, p: Plan, q: PlanRequest, tokens: seq<int>) {
    && q.id in r.steps
    && 1 <= r.steps[q.id] <= p.maxSteps
    && |tokens| == r.steps[q.id]
    && (r.route.HostFallback? ==> r.steps[q.id] == 1)
    && (r.route.DeviceRoute? && r.steps[q.id] < p.maxSteps ==> tokens != [] && tokens[|tokens| - 1] == q.eos)
  }

  /** `validate_against`: the checks it makes, all of them passed. */
  predicate Accepts(r: EpochResult, p: Plan, sampled: map<ReqId, seq<int>>)
    requires p.graphBatch >= 0
  {
    var mode := ClaimedTransfer(r);
    && r.version == p.version
    && r.steps.Keys == Ids(p) && sampled.Keys == Ids(p)
    && (r.route.DeviceRoute? ==>
          && r.status == 0 && r.commit.EpochCommitted? && r.feedCalls == 1 && r.fetchCalls == 1
          && r.rowGenerations == RowGenerations(p)
          && ((exists q | q in p.requests :: q.importRequired) ==> r.kvImported))
    && (r.kvImported ==> r.importChecksum != 0 && !mode.NoTransfer?)
    && (r.kvImported && mode.HostSnapshot? ==> r.snapshotChecksum != 0 && r.importChecksum == r.snapshotChecksum)
    && (!r.kvImported ==> mode.NoTransfer?)
    && (r.route.HostFallback? ==>
          && r.fallbackSafe && r.commit.EpochPrepared? && HostReplaySafe(p) && r.feedCalls == 0 && r.fetchCalls == 0)
    && (forall q | q in p.requests :: q.id in sampled && RequestAccepted(r, p, q, sampled[q.id]))
    && (r.route.DeviceRoute? ==> IsMax(r.steps, r.modelCalls))
  }

  // ----- the same in terms of requests and rows

  /** The row of no request holds the fill, the row of a request its value. */
  ghost predicate HoldsPerRow(s: seq<int>, p: Plan, field: PlanRequest -> int) {
    && |s| == p.graphBatch
    && (forall i :: 0 <= i < |p.requests| && 0 <= p.requests[i].row < |s| ==> s[p.requests[i].row] == field(p.requests[i]))
    && forall r :: 0 <= r < |s| && (forall i :: 0 <= i < |p.requests| ==> p.requests[i].row != r) ==> s[r] == 0
  }

  lemma PerRowIsScatter(s: seq<int>, p: Plan, field: PlanRequest -> int)
    requires p.graphBatch >= 0 && DistinctRows(p.requests) && forall q | q in p.requests :: 0 <= q.row < p.graphBatch
    ensures s == Scatter(p.requests, field, 0, p.graphBatch) <==> HoldsPerRow(s, p, field)
  {
    var scattered := Scatter(p.requests, field, 0, p.graphBatch);
    ScatterAt(p.requests, field, 0, p.graphBatch);
    assert HoldsPerRow(scattered, p, field);
    if HoldsPerRow(s, p, field) {
      forall r | 0 <= r < |s|
        ensures s[r] == scattered[r]
      {
        if i :| 0 <= i < |p.requests| && p.requests[i].row == r {
          assert p.requests[i] in p.requests;
        }
      }
    }
  }

  /** Two requests that share an id, a row or a generation are the same. */
  ghost predicate ToldApart(p: Plan) {
    forall i, j | 0 <= i < |p.requests| && 0 <= j < |p.requests| && i != j ::
      && p.requests[i].id != p.requests[j].id && p.requests[i].row != p.requests[j].row
      && p.requests[i].generation != p.requests[j].generation
  }

  lemma ToldApartIsDistinct(p: Plan)
    ensures ToldApart(p) <==> DistinctIds(p.requests) && DistinctRows(p.requests) && DistinctGenerations(p.requests)
  {
  }

  /** A valid plan: version 3, a batch of 1, 2 or 4, at least one request and no more than the batch, all told apart by id, row
      and generation, each continuing at its next position, inside the capacity and imported only from the host; the mask is
      one exactly in the rows of requests. */
  lemma ValidPlans(p: Plan)
    ensures ValidPlan(p) <==>
            && p.version == 3 && p.graphBatch in {1, 2, 4} && 1 <= |p.requests| <= p.graphBatch && ToldApart(p)
            && (forall i :: 0 <= i < |p.requests| ==>
                  var q := p.requests[i];
                  && q.generation > 0 && 0 <= q.row < p.graphBatch && q.length == q.position + 1
                  && q.position + p.maxSteps <= p.capacity && !(q.importRequired && q.owner.DeviceOwned?))
            && HoldsPerRow(p.activeMask, p, One)
  {
    ToldApartIsDistinct(p);
    assert (forall q | q in p.requests :: ValidRequest(p, q)) <==> forall i :: 0 <= i < |p.requests| ==> ValidRequest(p, p.requests[i]);
    assert (forall q | q in p.requests :: 0 <= q.row < p.graphBatch) <==>
           forall i :: 0 <= i < |p.requests| ==> 0 <= p.requests[i].row < p.graphBatch;
    if p.graphBatch in {1, 2, 4} && DistinctRows(p.requests) && forall q | q in p.requests :: 0 <= q.row < p.graphBatch {
      PerRowIsScatter(p.activeMask, p, One);
    }
  }

  /** What a result says of the tokens: each request of the plan, and nothing else, made between one and `maxSteps`. */
  ghost predicate TokensFit(r: EpochResult, p: Plan, sampled: map<ReqId, seq<int>>) {
    && (forall id :: id in sampled <==> exists i :: 0 <= i < |p.requests| && p.requests[i].id == id)
    && (forall id :: id in r.steps <==> id in sampled)
    && forall id :: id in sampled && id in r.steps ==> 1 <= |sampled[id]| <= p.maxSteps && r.steps[id] == |sampled[id]|
  }

  /** What a result says of imported KV: a non-zero checksum, which for a snapshot is the snapshot's, or no transfer at all. */
  ghost predicate ImportFits(r: EpochResult) {
    if r.kvImported then r.importChecksum != 0 && (r.transfer == DeviceIpc || r.importChecksum == r.snapshotChecksum)
    else r.transfer == NoTransfer
  }

  lemma IdOfRequest(p: Plan, id: ReqId)
    ensures id in Ids(p) <==> exists i :: 0 <= i < |p.requests| && p.requests[i].id == id
  {
    if id in Ids(p) {
      var q :| q in p.requests && q.id == id;
      var i :| 0 <= i < |p.requests| && p.requests[i] == q;
    }
  }

  lemma TokensFitRequests(r: EpochResult, p: Plan, sampled: map<ReqId, seq<int>>)
    ensures TokensFit(r, p, sampled) <==>
            && r.steps.Keys == Ids(p) && sampled.Keys == Ids(p)
            && forall q | q in p.requests ::
                 q.id in r.steps && q.id in sampled && 1 <= r.steps[q.id] <= p.maxSteps && |sampled[q.id]| == r.steps[q.id]
  {
    forall id
      ensures id in Ids(p) <==> exists i :: 0 <= i < |p.requests| && p.requests[i].id == id
    {
      IdOfRequest(p, id);
    }
    if TokensFit(r, p, sampled) {
      assert forall q :: q in p.requests ==> q.id in Ids(p);
    }
  }

  lemma NothingElseFits(r: EpochResult, p: Plan, sampled: map<ReqId, seq<int>>)
    requires p.graphBatch >= 0 && Accepts(r, p, sampled)
    ensures TokensFit(r, p, sampled)
  {
    TokensFitRequests(r, p, sampled);
  }

  /** The longest request has `v` tokens. */
  ghost predicate IsLongest(sampled: map<ReqId, seq<int>>, v: int) {
    (exists id :: id in sampled && |sampled[id]| == v) && forall id :: id in sampled ==> |sampled[id]| <= v
  }

  lemma LongestIsMax(r: EpochResult, p: Plan, sampled: map<ReqId, seq<int>>)
    requires TokensFit(r, p, sampled)
    ensures IsMax(r.steps, r.modelCalls) <==> IsLongest(sampled, r.modelCalls)
  {
    if k :| k in r.steps && r.steps[k] == r.modelCalls {
      assert k in sampled && |sampled[k]| == r.modelCalls;
    }
  }

  /** Requests that stop before the bound do so at their EOS. */
  ghost predicate StopsAtEos(p: Plan, sampled: map<ReqId, seq<int>>) {
    forall i :: 0 <= i < |p.requests| && p.requests[i].id in sampled && sampled[p.requests[i].id] != [] ==>
      var tokens := sampled[p.requests[i].id];
      |tokens| < p.maxSteps ==> tokens[|tokens| - 1] == p.requests[i].eos
  }

  lemma RequestsStop(r: EpochResult, p: Plan, sampled: map<ReqId, seq<int>>)
    requires TokensFit(r, p, sampled) && r.route.DeviceRoute?
    ensures (forall q | q in p.requests :: q.id in sampled && RequestAccepted(r, p, q, sampled[q.id])) <==> StopsAtEos(p, sampled)
  {
    if StopsAtEos(p, sampled) {
      forall q | q in p.requests
        ensures q.id in sampled && RequestAccepted(r, p, q, sampled[q.id])
      {
        var i :| 0 <= i < |p.requests| && p.requests[i] == q;
      }
    } else {
      var i :| 0 <= i < |p.requests| && p.requests[i].id in sampled && sampled[p.requests[i].id] != []
               && |sampled[p.requests[i].id]| < p.maxSteps
               && sampled[p.requests[i].id][|sampled[p.requests[i].id]| - 1] != p.requests[i].eos;
      assert p.requests[i] in p.requests && !RequestAccepted(r, p, p.requests[i], sampled[p.requests[i].id]);
    }
  }

  ghost predicate AnyImports(p: Plan) { exists i :: 0 <= i < |p.requests| && p.requests[i].importRequired }

  lemma ImportsAreRequired(p: Plan)
    ensures AnyImports(p) <==> exists q | q in p.requests :: q.importRequired
  {
    if q :| q in p.requests && q.importRequired {
      var i :| 0 <= i < |p.requests| && p.requests[i] == q;
    }
  }

  lemma ImportIsProved(r: EpochResult)
    ensures ImportFits(r) <==>
            && (r.kvImported ==> r.importChecksum != 0 && !ClaimedTransfer(r).NoTransfer?)
            && (r.kvImported && ClaimedTransfer(r).HostSnapshot? ==> r.snapshotChecksum != 0 && r.importChecksum == r.snapshotChecksum)
            && (!r.kvImported ==> ClaimedTransfer(r).NoTransfer?)
  {
  }

  /** A device result is accepted exactly if the device committed it with status 0 after one feed and one fetch, echoes the
      generations, imported KV if a request needed it, stopped a request early only at its EOS, and called the decoder as often
      as the longest request needed. */
  lemma AcceptedFromDevice(r: EpochResult, p: Plan, sampled: map<ReqId, seq<int>>)
    requires ValidPlan(p) && r.route.DeviceRoute?
    ensures Accepts(r, p, sampled) <==>
            && r.version == 3 && r.status == 0 && r.commit == EpochCommitted && r.feedCalls == 1 && r.fetchCalls == 1
            && TokensFit(r, p, sampled) && ImportFits(r) && HoldsPerRow(r.rowGenerations, p, GenerationOf)
            && (AnyImports(p) ==> r.kvImported) && StopsAtEos(p, sampled) && IsLongest(sampled, r.modelCalls)
  {
    GenerationsEchoed(r, p);
    ImportsAreRequired(p);
    ImportIsProved(r);
    if TokensFit(r, p, sampled) {
      LongestIsMax(r, p, sampled);
      RequestsStop(r, p, sampled);
      KeysFit(r, p, sampled);
    } else if Accepts(r, p, sampled) {
      NothingElseFits(r, p, sampled);
    }
  }

  lemma GenerationsEchoed(r: EpochResult, p: Plan)
    requires ValidPlan(p)
    ensures r.rowGenerations == RowGenerations(p) <==> HoldsPerRow(r.rowGenerations, p, GenerationOf)
  {
    PerRowIsScatter(r.rowGenerations, p, GenerationOf);
  }

  lemma KeysFit(r: EpochResult, p: Plan, sampled: map<ReqId, seq<int>>)
    requires TokensFit(r, p, sampled)
    ensures r.steps.Keys == Ids(p) && sampled.Keys == Ids(p)
  {
    TokensFitRequests(r, p, sampled);
  }

  /** Every request is the host's and made one token. */
  ghost predicate HostMadeOne(p: Plan, sampled: map<ReqId, seq<int>>) {
    forall i :: 0 <= i < |p.requests| ==>
      p.requests[i].owner == HostOwned && p.requests[i].id in sampled && |sampled[p.requests[i].id]| == 1
  }

  lemma HostRequestsFit(r: EpochResult, p: Plan, sampled: map<ReqId, seq<int>>)
    requires TokensFit(r, p, sampled) && r.route.HostFallback?
    ensures HostMadeOne(p, sampled) <==>
            HostReplaySafe(p) && forall q | q in p.requests :: q.id in sampled && RequestAccepted(r, p, q, sampled[q.id])
  {
    if HostMadeOne(p, sampled) {
      forall q | q in p.requests
        ensures q.owner == HostOwned && q.id in sampled && RequestAccepted(r, p, q, sampled[q.id])
      {
        var i :| 0 <= i < |p.requests| && p.requests[i] == q;
      }
    }
  }

  /** A fallback result is accepted exactly if nothing was fed or fetched, it is declared safe in the prepared state, every
      request is the host's, and each made one token. */
  lemma AcceptedFromHost(r: EpochResult, p: Plan, sampled: map<ReqId, seq<int>>)
    requires ValidPlan(p) && r.route.HostFallback?
    ensures Accepts(r, p, sampled) <==>
            && r.version == 3 && r.fallbackSafe && r.commit == EpochPrepared && r.feedCalls == 0 && r.fetchCalls == 0
            && TokensFit(r, p, sampled) && ImportFits(r) && HostMadeOne(p, sampled)
  {
    ImportIsProved(r);
    if TokensFit(r, p, sampled) {
      HostRequestsFit(r, p, sampled);
      KeysFit(r, p, sampled);
    } else if Accepts(r, p, sampled) {
      NothingElseFits(r, p, sampled);
    }
  }
}
