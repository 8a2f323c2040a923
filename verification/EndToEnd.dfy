/** Scheduler, bridge and device together: every token the scheduler holds for a request the device owns is the one
    the plain one-request decoder makes from the request's own KV. */
module EndToEnd {
  import opened Layout
  import opened Flow
  import opened EpochSpec
  import opened EpochRows
  import opened RowDecoder
  import opened Bridge
  import opened Contract
  import opened RowLeases
  import opened Scheduler
  import opened SchedulerSafety
  import opened Sidecar
  import opened Lockstep
  import opened LockstepRuns
  import K = KvTransfer
  import L = LeaseHistory

  /** The request's tokens are its lease: those before it, the one it started from, and what has been made since. */
  ghost predicate TokensAreLease(t: L.Tenancy, q: Request) {
    && t.Held? && 0 <= t.start.position
    && |q.tokens| == t.start.position + 1 + |t.tokens|
    && q.tokens[t.start.position] == t.start.token && q.tokens[t.start.position + 1..] == t.tokens
  }

  ghost predicate OwnedTokens(v: View, ts: L.Tenancies) {
    forall id | Resident(v, id) ::
      id in v.leases.rows && v.leases.rows[id] < BATCH && TokensAreLease(ts[v.leases.rows[id]], v.requests[id])
  }

  /** No call has failed in the decoder. */
  ghost predicate NeverFailed(ts: L.Tenancies) { forall r: nat | r < BATCH :: !ts[r].Superseded? }

  ghost predicate Together(model: RowModel, s: Sys, ts: L.Tenancies) {
    Lockstep.Inv(s) && L.Inv(model, s.d, ts) && NeverFailed(ts) && OwnedTokens(s.v, ts)
  }

  // ----- the stock caches

  datatype StockCaches = StockCaches(stock: K.Stock, memory: K.Memory)

  /** The payload is the capture of the plan's imports on these caches, block by block. */
  ghost predicate Captured(c: StockCaches, p: Plan, kv: KvImport) {
    kv.KvPayload? ==>
      && K.Viewed(c.stock, c.memory) && K.Snapshottable(c.stock, K.Imports(p.requests))
      && forall i: nat | i < 2 * HALF_BLOCKS :: K.SnapshotBlock(c.stock, c.memory, K.Imports(p.requests), i, PayloadBlock(kv.payload, i))
  }

  /** What a capture of a plan returns is such a payload. */
  lemma CaptureIsCaptured(c: StockCaches, p: Plan, blocks: seq<Block>, mask: int)
    requires K.Viewed(c.stock, c.memory) && K.Snapshottable(c.stock, K.Imports(p.requests)) && |blocks| == 2 * HALF_BLOCKS
    requires forall i: nat | i < 2 * HALF_BLOCKS :: K.SnapshotBlock(c.stock, c.memory, K.Imports(p.requests), i, blocks[i])
    ensures Captured(c, p, KvPayload(mask, K.PayloadBytes(blocks)))
  {
    forall i: nat | i < 2 * HALF_BLOCKS
      ensures PayloadBlock(K.PayloadBytes(blocks), i) == blocks[i]
    {
      K.PayloadBytesAt(blocks, i);
    }
  }

  /** A row filled from one scheduler block: per layer that block of the stock key (or value) cache, then zeros. */
  function StockRow(c: StockCaches, block: nat, half: nat): seq<Block>
    requires half < 2 && K.Viewed(c.stock, c.memory) && (block + 1) * BLOCK_BYTES <= c.stock.viewBytes
  {
    seq<Block>(ROW_BLOCKS, i requires 0 <= i < ROW_BLOCKS =>
      if i % 2 == 0 then K.SourceBlock(c.stock, c.memory, i / 2 * 2 + half, block) else ZeroBlock())
  }

  /** The state a request is handed over in: its own scheduler block of the stock caches, its last token, its position. */
  ghost predicate OwnKv(c: StockCaches, q: PlanRequest, begin: RowState) {
    && |q.blocks| == 1 && q.blocks[0] >= 0 && K.Viewed(c.stock, c.memory) && (q.blocks[0] + 1) * BLOCK_BYTES <= c.stock.viewBytes
    && begin == RowState(RowKV(StockRow(c, q.blocks[0], 0), StockRow(c, q.blocks[0], 1)), q.token, q.position)
  }

  function HalfBase(half: nat): (base: nat)
    ensures base <= HALF_BLOCKS
  {
    if half == 0 then 0 else HALF_BLOCKS
  }

  /** The payload block of a row's layer in one half. */
  function CellIndex(half: nat, layer: nat, row: nat): (i: nat)
    requires half < 2 && layer < LAYERS && row < BATCH
    ensures i < 2 * HALF_BLOCKS && i % BATCH == row && K.SourceOf(i) == layer * 2 + half
  {
    K.SourcesAt(layer, row);
    HalfBase(half) + (layer * BATCH + row)
  }

  lemma CapturedCell(c: StockCaches, p: Plan, kv: KvImport, q: PlanRequest, layer: nat, half: nat)
    requires Captured(c, p, kv) && kv.KvPayload? && q in p.requests && q.importRequired && 0 <= q.row < BATCH && layer < LAYERS && half < 2
    ensures K.Usable(c.stock, q)
    ensures PayloadBlock(kv.payload, CellIndex(half, layer, q.row)) == K.SourceBlock(c.stock, c.memory, layer * 2 + half, q.blocks[0])
  {
    assert q in K.Imports(p.requests);
    var i := CellIndex(half, layer, q.row);
    assert K.SnapshotBlock(c.stock, c.memory, K.Imports(p.requests), i, PayloadBlock(kv.payload, i));
  }

  lemma ImportedRowAt(p: Payload, half: nat, row: nat, i: nat, layer: nat)
    requires row < BATCH && half < 2 && i < ROW_BLOCKS && layer == i / 2 < LAYERS
    ensures ImportedRow(p, HalfBase(half), row)[i] == if i % 2 == 0 then PayloadBlock(p, CellIndex(half, layer, row)) else ZeroBlock()
  {
  }

  lemma StockRowAt(c: StockCaches, block: nat, half: nat, i: nat, layer: nat)
    requires half < 2 && K.Viewed(c.stock, c.memory) && (block + 1) * BLOCK_BYTES <= c.stock.viewBytes && i < ROW_BLOCKS && layer == i / 2 < LAYERS
    ensures StockRow(c, block, half)[i] == if i % 2 == 0 then K.SourceBlock(c.stock, c.memory, layer * 2 + half, block) else ZeroBlock()
  {
  }

  lemma CapturedEntry(c: StockCaches, p: Plan, kv: KvImport, q: PlanRequest, half: nat, i: nat, layer: nat)
    requires Captured(c, p, kv) && kv.KvPayload? && q in p.requests && q.importRequired && 0 <= q.row < BATCH && half < 2
    requires i < ROW_BLOCKS && layer == i / 2 < LAYERS
    ensures K.Usable(c.stock, q) && ImportedRow(kv.payload, HalfBase(half), q.row)[i] == StockRow(c, q.blocks[0], half)[i]
  {
    CapturedCell(c, p, kv, q, layer, half);
    ImportedRowAt(kv.payload, half, q.row, i, layer);
    StockRowAt(c, q.blocks[0], half, i, layer);
  }

  lemma CapturedRow(c: StockCaches, p: Plan, kv: KvImport, q: PlanRequest, half: nat)
    requires Captured(c, p, kv) && kv.KvPayload? && q in p.requests && q.importRequired && 0 <= q.row < BATCH && half < 2
    ensures K.Usable(c.stock, q) && ImportedRow(kv.payload, HalfBase(half), q.row) == StockRow(c, q.blocks[0], half)
  {
    CapturedCell(c, p, kv, q, 0, half);
    var imported, stock := ImportedRow(kv.payload, HalfBase(half), q.row), StockRow(c, q.blocks[0], half);
    forall i: nat | i < ROW_BLOCKS
      ensures imported[i] == stock[i]
    {
      CapturedEntry(c, p, kv, q, half, i, i / 2);
    }
  }

  // ----- events

  /** The host's request is taken for the continuation of what has its generation on the row: the warm-up. */
  predicate Mistaken(d: Device, q: PlanRequest) {
    0 <= q.row < BATCH && q.owner.HostOwned? && !q.importRequired && d.rows[q.row].generation == q.generation
  }

  ghost predicate MistakenRow(d: Device, p: Plan, r: nat) { exists q :: q in p.requests && q.row == r && Mistaken(d, q) }

  /** Whoever is taken for it starts a lease of its own, in the state the row is in. */
  ghost function Restart(d: Device, p: Plan, t: L.Tenancy, r: nat): L.Tenancy
    requires r < BATCH
  {
    if MistakenRow(d, p, r) then L.Held(d.rows[r].generation, RowOf(d, r), []) else t
  }

  ghost function Restarted(d: Device, p: Plan, ts: L.Tenancies): L.Tenancies {
    [Restart(d, p, ts[0], 0), Restart(d, p, ts[1], 1), Restart(d, p, ts[2], 2), Restart(d, p, ts[3], 3)]
  }

  /** A device round whose decoder graph is row-local and whose import is the capture of the plan on the stock caches. */
  ghost predicate Plain(u: Setup, s: Sys, e: Event, model: RowModel, c: StockCaches)
    requires Lockstep.Inv(s) && Enabled(u, s, e)
  {
    e.DeviceRound? ==>
      var p := Schedules(u.config, u.maxRunning, s.v, e.base, e.blocks).1.plan.value;
      RowLocal(e.ctx.runFlowModel, model) && Captured(c, p, e.kv)
  }

  /** The tenancies after an event: only device rounds change them. */
  ghost function TenanciesNext(u: Setup, s: Sys, e: Event, ts: L.Tenancies): L.Tenancies
    requires Lockstep.Inv(s) && Enabled(u, s, e)
  {
    if !e.DeviceRound? then ts
    else
      var p := Schedules(u.config, u.maxRunning, s.v, e.base, e.blocks).1.plan.value;
      var call := Fed(ArgsOf(p, e.kv, e.tiling));
      var d := s.d.(ready := true);
      L.NextTenancies(d, call, Epoch(d, call, e.ctx).1, Restarted(d, p, ts))
  }

  // ----- one row

  /** The request goes on with what is in its row: its own state, or what has its generation there. */
  ghost predicate GoesOn(d: Device, l: Leases, id: ReqId, q: Request, r: nat)
    requires r < BATCH
  {
    id in l.owned || (q.prompt <= 1 && id in l.generations && d.rows[r].generation == l.generations[id])
  }

  /** What the device is told of a request, and what it knows of it. */
  ghost predicate Asked(d: Device, call: EpochInput, l: Leases, id: ReqId, q: Request, r: nat) {
    && r < BATCH && q.tokens != [] && call.Typed()
    && call.rows[r].active == 1 && call.rows[r].token == q.tokens[|q.tokens| - 1] && call.rows[r].position == |q.tokens| - 1
    && (if GoesOn(d, l, id, q, r) then d.rows[r].generation == call.rows[r].generation && !Imports(call, r)
        else (Imports(call, r) <==> q.prompt > 1) && (!Imports(call, r) ==> d.rows[r].generation != call.rows[r].generation))
  }

  /** How a request's lease begins, or that it goes on, in an admitted call. */
  ghost predicate Starts(d: Device, call: EpochInput, l: Leases, id: ReqId, q: Request, r: nat)
    requires r < BATCH && call.Typed()
  {
    if GoesOn(d, l, id, q, r) then !Imports(call, r) && !NewLease(Import(d, call).0.rows[r], call.rows[r])
    else if q.prompt > 1 then Imports(call, r) && !NewLease(Import(d, call).0.rows[r], call.rows[r])
    else !Imports(call, r) && NewLease(Import(d, call).0.rows[r], call.rows[r]) && call.rows[r].position == 0
  }

  lemma RequestStarts(d: Device, call: EpochInput, l: Leases, id: ReqId, q: Request, r: nat)
    requires Asked(d, call, l, id, q, r) && InputStatus(call) == OK && Admit(d, call).1 == OK
    ensures Starts(d, call, l, id, q, r)
  {
    ImportEffect(d, call);
    var d1 := Import(d, call).0;
    assert if Imports(call, r) then RowImported(call, d1, r) else RowUntouched(d, d1, r);
    assert Continues(d1.rows[r], call.rows[r]);
    assert RowStatus(call, r) == OK;
  }

  /** The state the lease of a served request has started from. */
  ghost function StartFor(call: EpochInput, goesOn: bool, q: Request, t: L.Tenancy, r: nat): RowState
    requires call.Typed() && r < BATCH && (goesOn ==> t.Held?) && (!goesOn && q.prompt > 1 ==> call.importing)
  {
    if goesOn then t.start else if q.prompt > 1 then L.ImportState(call, r) else L.FreshState(call, r)
  }

  /** A request of a successful epoch: its lease starts here or goes on, and its new tokens are the epoch's. */
  lemma LeaseGoesOn(d: Device, call: EpochInput, l: Leases, id: ReqId, q: Request, q': Request, made: seq<int>, t: L.Tenancy, r: nat)
    requires Asked(d, call, l, id, q, r) && InputStatus(call) == OK && Admit(d, call).1 == OK
    requires GoesOn(d, l, id, q, r) ==> TokensAreLease(t, q)
    requires q'.tokens == q.tokens + made
    ensures TokensAreLease(L.NextTenancy(d, call, OK, made, t, r), q')
    ensures (!GoesOn(d, l, id, q, r) && q.prompt > 1 ==> call.importing)
    ensures L.NextTenancy(d, call, OK, made, t, r).start == StartFor(call, GoesOn(d, l, id, q, r), q, t, r)
  {
    RequestStarts(d, call, l, id, q, r);
  }

  /** A plan's request in the call the device decodes. */
  lemma EntryFed(p: Plan, kv: KvImport, tiling: Tiling, q: PlanRequest)
    requires ValidPlan(p) && p.graphBatch == BATCH && ImportFor(p, kv) && Code(ArgsOf(p, kv, tiling)) == ACCEPTED
    requires ImportMatches(ArgsOf(p, kv, tiling)) && q in p.requests
    ensures ValidRequest(p, q) && 0 <= q.row < BATCH
    ensures var e := Fed(ArgsOf(p, kv, tiling));
            && e.rows[q.row].active == 1 && e.rows[q.row].token == q.token && e.rows[q.row].position == q.position
            && e.rows[q.row].generation == q.generation && (Imports(e, q.row) <==> q.importRequired)
  {
    var a := ArgsOf(p, kv, tiling);
    var e := Fed(a);
    ArgsAt(p, kv, tiling);
    FedValid(a);
    ImportEffect(Initial(), e);
    assert ValidRequest(p, q);
    assert e.rows[q.row] == FedRow(a, q.row);
    assert Imports(e, q.row) <==> Selected(e, q.row);
    OneARow(p, q);
  }

  /** The entry of a fully computed request asks for its last token. */
  lemma EntryAsks(d: Device, e: EpochInput, p: Plan, requests: Requests, l: Leases, blocks: Blocks, id: ReqId)
    requires Enterable(requests, l, blocks, id) && requests[id].computed == |requests[id].tokens| && l.rows[id] < BATCH && e.Typed()
    requires var q, r := EntryOf(l, id, requests[id], blocks(id)), l.rows[id];
             && KnownToDevice(d, p, q) && !Returned(q)
             && e.rows[r].active == 1 && e.rows[r].token == q.token && e.rows[r].position == q.position
             && e.rows[r].generation == q.generation && (Imports(e, r) <==> q.importRequired)
    ensures Asked(d, e, l, id, requests[id], l.rows[id])
  {
  }

  /** The plan of a round, in its call, on its device and with its payload. */
  ghost predicate Served(c: Config, w: View, d: Device, blocks: Blocks, ids: seq<ReqId>, p: Plan, kv: KvImport, tiling: Tiling, k: StockCaches) {
    && AllLeased(w.requests, w.leases, ids) && Plannable(c, w.requests, w.leases, blocks, ids)
    && p == PlanOf(c, w.requests, w.leases, blocks, ids) && ValidPlan(p) && p.graphBatch == BATCH
    && ImportFor(p, kv) && Code(ArgsOf(p, kv, tiling)) == ACCEPTED && ImportMatches(ArgsOf(p, kv, tiling)) && Captured(k, p, kv)
    && forall q | q in p.requests :: KnownToDevice(d, p, q) && 0 <= q.row < BATCH && Taken(d, q) && !Returned(q)
  }

  /** The entry of a request in a plan. */
  ghost predicate EntryFor(d: Device, w: View, p: Plan, id: ReqId, q: PlanRequest) {
    && id in w.requests && id in w.leases.rows && w.leases.rows[id] < BATCH && w.requests[id].tokens != []
    && q in p.requests && q.id == id && q.row == w.leases.rows[id]
    && q.token == w.requests[id].tokens[|w.requests[id].tokens| - 1] && q.position == |w.requests[id].tokens| - 1
    && (q.owner.DeviceOwned? <==> id in w.leases.owned) && (q.importRequired <==> w.requests[id].prompt > 1 && id !in w.leases.owned)
    && (Mistaken(d, q) <==> GoesOn(d, w.leases, id, w.requests[id], q.row) && id !in w.leases.owned)
  }

  lemma RequestEntry(c: Config, w: View, d: Device, blocks: Blocks, ids: seq<ReqId>, p: Plan, id: ReqId) returns (q: PlanRequest)
    requires AllLeased(w.requests, w.leases, ids) && Plannable(c, w.requests, w.leases, blocks, ids)
    requires p == PlanOf(c, w.requests, w.leases, blocks, ids) && id in ids
    ensures EntryFor(d, w, p, id, q)
    ensures Enterable(w.requests, w.leases, blocks, id) && w.requests[id].computed == |w.requests[id].tokens|
    ensures q == EntryOf(w.leases, id, w.requests[id], blocks(id))
  {
    var i: nat :| i < |ids| && ids[i] == id;
    EntryAt(c, w.requests, w.leases, blocks, ids, i);
    q := p.requests[i];
    EntryIs(d, w, blocks, p, id, q);
  }

  lemma EntryIs(d: Device, w: View, blocks: Blocks, p: Plan, id: ReqId, q: PlanRequest)
    requires Enterable(w.requests, w.leases, blocks, id) && w.requests[id].computed == |w.requests[id].tokens| && w.leases.rows[id] < BATCH
    requires q in p.requests && q == EntryOf(w.leases, id, w.requests[id], blocks(id))
    ensures EntryFor(d, w, p, id, q)
  {
  }

  lemma RequestAsked(c: Config, w: View, d: Device, blocks: Blocks, ids: seq<ReqId>, p: Plan, kv: KvImport, tiling: Tiling, k: StockCaches, id: ReqId)
    returns (q: PlanRequest)
    requires Served(c, w, d, blocks, ids, p, kv, tiling, k) && id in ids
    ensures EntryFor(d, w, p, id, q)
    ensures Asked(d, Fed(ArgsOf(p, kv, tiling)), w.leases, id, w.requests[id], w.leases.rows[id])
  {
    q := RequestEntry(c, w, d, blocks, ids, p, id);
    EntryFed(p, kv, tiling, q);
    EntryAsks(d, Fed(ArgsOf(p, kv, tiling)), p, w.requests, w.leases, blocks, id);
  }

  /** An import starts the lease from the request's own scheduler block. */
  lemma ImportIsOwnKv(k: StockCaches, p: Plan, kv: KvImport, tiling: Tiling, q: PlanRequest)
    requires ValidPlan(p) && p.graphBatch == BATCH && ImportFor(p, kv) && Code(ArgsOf(p, kv, tiling)) == ACCEPTED
    requires ImportMatches(ArgsOf(p, kv, tiling)) && Captured(k, p, kv) && q in p.requests && q.importRequired
    ensures 0 <= q.row < BATCH && Fed(ArgsOf(p, kv, tiling)).importing && OwnKv(k, q, L.ImportState(Fed(ArgsOf(p, kv, tiling)), q.row))
  {
    EntryFed(p, kv, tiling, q);
    assert kv.KvPayload?;
    CapturedRow(k, p, kv, q, 0);
    CapturedRow(k, p, kv, q, 1);
  }

  lemma EpochAdmitted(d: Device, e: EpochInput, ctx: Context)
    requires e.Typed() && Epoch(d, e, ctx).1.status == OK
    ensures InputStatus(e) == OK && Admit(d, e).1 == OK
  {
    ImportEffect(d, e);
  }

  /** The request is one of the plan that is taken for the warm-up, and this is the state of its row. */
  ghost predicate TakenOver(d: Device, p: Plan, id: ReqId, begin: RowState) {
    exists q :: q in p.requests && q.id == id && Mistaken(d, q) && FromWarmup(q) && begin == RowOf(d, q.row)
  }

  /** What the lease of a served request starts from: what it started from before, its own KV, nothing, or what the
      warm-up has left. */
  ghost predicate RowStarts(d: Device, p: Plan, l: Leases, id: ReqId, prompt: nat, k: StockCaches, before: L.Tenancy, after: L.Tenancy) {
    && after.Held?
    && if id in l.owned then before.Held? && after.start == before.start
       else if prompt > 1 then exists q :: q in p.requests && q.id == id && q.importRequired && OwnKv(k, q, after.start)
       else TakenOver(d, p, id, after.start) || (after.start.position == 0 && after.start.kv == RowKV(ZeroRow(), ZeroRow()))
  }

  /** The tenancy a served request finds in its row. */
  ghost predicate Finds(d: Device, w: View, p: Plan, id: ReqId, before: L.Tenancy, t: L.Tenancy)
    requires id in w.requests && id in w.leases.rows && w.leases.rows[id] < BATCH
  {
    && (id in w.leases.owned ==> t == before)
    && (GoesOn(d, w.leases, id, w.requests[id], w.leases.rows[id]) ==> TokensAreLease(t, w.requests[id]))
    && (GoesOn(d, w.leases, id, w.requests[id], w.leases.rows[id]) && id !in w.leases.owned ==> TakenOver(d, p, id, t.start))
  }

  lemma RestartAt(d: Device, w: View, p: Plan, ts: L.Tenancies, id: ReqId, q: PlanRequest)
    requires EntryFor(d, w, p, id, q) && ValidPlan(p) && KnownToDevice(d, p, q) && Taken(d, q)
    requires id in w.leases.owned ==> TokensAreLease(ts[w.leases.rows[id]], w.requests[id])
    ensures Finds(d, w, p, id, ts[w.leases.rows[id]], Restarted(d, p, ts)[w.leases.rows[id]])
  {
    EntryRestarts(d, p, ts, q, w.requests[id]);
  }

  lemma ServedEntry(c: Config, w: View, d: Device, blocks: Blocks, ids: seq<ReqId>, p: Plan, kv: KvImport, tiling: Tiling, k: StockCaches, q: PlanRequest)
    requires Served(c, w, d, blocks, ids, p, kv, tiling, k) && q in p.requests
    ensures ValidPlan(p) && 0 <= q.row < BATCH && KnownToDevice(d, p, q) && Taken(d, q)
  {
  }

  /** The same for a plan's entry. */
  lemma EntryRestarts(d: Device, p: Plan, ts: L.Tenancies, q: PlanRequest, request: Request)
    requires ValidPlan(p) && q in p.requests && 0 <= q.row < BATCH && KnownToDevice(d, p, q) && Taken(d, q)
    requires request.tokens != [] && q.token == request.tokens[|request.tokens| - 1] && q.position == |request.tokens| - 1
    ensures var t := Restarted(d, p, ts)[q.row];
            && (!Mistaken(d, q) ==> t == ts[q.row])
            && (Mistaken(d, q) ==> TokensAreLease(t, request) && TakenOver(d, p, q.id, t.start))
  {
    forall x | x in p.requests && x.row == q.row
      ensures x == q
    {
      OnlyEntry(p, q, x);
    }
    assert MistakenRow(d, p, q.row) <==> Mistaken(d, q);
    RestartedAt(d, p, ts, q.row);
  }

  lemma RestartedAt(d: Device, p: Plan, ts: L.Tenancies, r: nat)
    requires r < BATCH
    ensures Restarted(d, p, ts)[r] == Restart(d, p, ts[r], r)
  {
  }

  lemma OnlyEntry(p: Plan, q: PlanRequest, x: PlanRequest)
    requires ValidPlan(p) && q in p.requests && x in p.requests && x.row == q.row
    ensures x == q
  {
    var i :| 0 <= i < |p.requests| && p.requests[i] == q;
    var j :| 0 <= j < |p.requests| && p.requests[j] == x;
  }

  /** A request of a plan after the epoch that served it. */
  lemma RequestServedFrom(c: Config, w: View, d: Device, blocks: Blocks, ids: seq<ReqId>, p: Plan, kv: KvImport, tiling: Tiling, k: StockCaches,
                          ctx: Context, end: Ending, ts: L.Tenancies, id: ReqId, q': Request)
    requires Served(c, w, d, blocks, ids, p, kv, tiling, k) && id in ids
    requires end == Epoch(d, Fed(ArgsOf(p, kv, tiling)), ctx).1 && end.status == OK
    requires id in w.leases.owned ==> TokensAreLease(ts[w.leases.rows[id]], w.requests[id])
    requires q'.tokens == w.requests[id].tokens + end.l.lanes[w.leases.rows[id]].made
    ensures var r := w.leases.rows[id];
            var t' := L.NextTenancies(d, Fed(ArgsOf(p, kv, tiling)), end, Restarted(d, p, ts))[r];
            TokensAreLease(t', q') && RowStarts(d, p, w.leases, id, w.requests[id].prompt, k, ts[r], t')
  {
    var e, r := Fed(ArgsOf(p, kv, tiling)), w.leases.rows[id];
    var q := RequestAsked(c, w, d, blocks, ids, p, kv, tiling, k, id);
    EpochAdmitted(d, e, ctx);
    ServedEntry(c, w, d, blocks, ids, p, kv, tiling, k, q);
    RestartAt(d, w, p, ts, id, q);
    LeaseGoesOn(d, e, w.leases, id, w.requests[id], q', end.l.lanes[r].made, Restarted(d, p, ts)[r], r);
    TenancyAt(d, e, end, Restarted(d, p, ts), r);
    if q.importRequired { ImportIsOwnKv(k, p, kv, tiling, q); }
  }

  lemma TenancyAt(d: Device, e: EpochInput, end: Ending, ts: L.Tenancies, r: nat)
    requires e.Typed() && r < BATCH
    ensures L.NextTenancies(d, e, end, ts)[r] == L.NextTenancy(d, e, end.status, end.l.lanes[r].made, ts[r], r)
  {
  }

  // ----- one event

  /** Whatever the device still holds is as it was: tokens, prompt, row and generation. */
  ghost predicate StillOwned(v: View, v': View) {
    forall id | Resident(v', id) ::
      && Resident(v, id)
      && id in v.leases.rows && id in v'.leases.rows && v'.leases.rows[id] == v.leases.rows[id]
      && id in v.leases.generations && id in v'.leases.generations && v'.leases.generations[id] == v.leases.generations[id]
      && v'.requests[id].tokens == v.requests[id].tokens && v'.requests[id].prompt == v.requests[id].prompt
  }

  /** Scheduling neither moves nor changes what the device owns. */
  lemma OwnedScheduled(v: View, w: View, out: Output)
    requires Safe(v.leases) && LeaseStep(v.leases, w.leases, out.ids) && w.requests.Keys == v.requests.Keys
    requires forall id | id in v.requests :: RequestScheduled(v, w, out, id)
    ensures StillOwned(v, w)
  {
    forall id | Resident(w, id)
      ensures id in v.leases.owned && id in v.leases.rows && w.leases.rows[id] == v.leases.rows[id] && RequestScheduled(v, w, out, id)
      ensures id in v.leases.generations && id in w.leases.generations && w.leases.generations[id] == v.leases.generations[id]
    {
      assert id in v.leases.owned;
    }
  }

  /** A host round leaves tokens, row and generation of everything the device owns as they are. */
  lemma HostRoundLeaves(u: Setup, s: Sys, e: Event)
    requires e.HostRound? && Lockstep.Inv(s) && HostEnabled(u, s, e)
    ensures StillOwned(s.v, AfterHost(u, s, e).v)
  {
    var (w, scheduling) := Schedules(u.config, u.maxRunning, s.v, e.base, e.blocks);
    RoundHolds(u, s.v, e.base, e.blocks);
    HostRunsItsOwn(u, s.v, w, scheduling, e.blocks);
    OwnedScheduled(s.v, w, scheduling.out);
    assert forall id | id in w.leases.owned :: id !in e.sampled;
  }

  /** So does every event but a device round. */
  lemma OtherEventsLeave(u: Setup, s: Sys, e: Event)
    requires Lockstep.Inv(s) && Enabled(u, s, e) && !e.DeviceRound?
    ensures StillOwned(s.v, After(u, s, e).v) && After(u, s, e).d == s.d
  {
    if e.HostRound? { HostRoundLeaves(u, s, e); }
  }

  lemma StillTogether(v: View, v': View, ts: L.Tenancies)
    requires StillOwned(v, v') && OwnedTokens(v, ts)
    ensures OwnedTokens(v', ts)
  {
  }

  /** The requests of a cohort, as accounting and the base scheduler leave them. */
  ghost function Cohort(w: View, out: Output, lanes: Lanes): Requests
    requires forall id | id in out.ids :: id in out.counts && id in w.leases.rows && w.leases.rows[id] < BATCH
  {
    var sampled := DeviceSamples(w.leases, out.ids, lanes);
    Appended(Accounted(w.requests, out, StepCounts(sampled)), sampled)
  }

  /** Every request of the cohort has its lease's tokens, and its lease has started as it should. */
  ghost predicate CohortTokens(d: Device, w: View, out: Output, p: Plan, k: StockCaches, r: Requests, ts: L.Tenancies, ts': L.Tenancies) {
    forall id | id in out.ids ::
      && id in r && id in w.requests && id in w.leases.rows && w.leases.rows[id] < BATCH && r[id].prompt == w.requests[id].prompt
      && TokensAreLease(ts'[w.leases.rows[id]], r[id])
      && RowStarts(d, p, w.leases, id, r[id].prompt, k, ts[w.leases.rows[id]], ts'[w.leases.rows[id]])
  }

  lemma CohortPrompt(w: View, out: Output, lanes: Lanes, id: ReqId)
    requires forall id | id in out.ids :: id in out.counts && id in w.leases.rows && w.leases.rows[id] < BATCH
    requires id in w.requests
    ensures Cohort(w, out, lanes)[id].prompt == w.requests[id].prompt
  {
    var sampled := DeviceSamples(w.leases, out.ids, lanes);
    if id in sampled { AppendKeeps(Accounted(w.requests, out, StepCounts(sampled))[id], sampled[id]); }
  }

  /** Whoever the device owns in a plan it takes is held there. */
  lemma OwnedIsResident(c: Config, w: View, blocks: Blocks, ids: seq<ReqId>, p: Plan, id: ReqId)
    requires AllLeased(w.requests, w.leases, ids) && Plannable(c, w.requests, w.leases, blocks, ids)
    requires p == PlanOf(c, w.requests, w.leases, blocks, ids) && forall q | q in p.requests :: !Returned(q)
    requires id in ids && 1 <= w.requests[id].prompt <= |w.requests[id].tokens|
    ensures id in w.leases.owned ==> Resident(w, id)
  {
    var i: nat :| i < |ids| && ids[i] == id;
    EntryAt(c, w.requests, w.leases, blocks, ids, i);
    assert Ready(c, w.requests[id], id in w.leases.owned, blocks(id));
    assert !Returned(p.requests[i]);
  }

  lemma CohortTogether(u: Setup, v: View, w: View, scheduling: Scheduling, d: Device, e: Event, k: StockCaches, end: Ending, ts: L.Tenancies)
    requires ValidConfig(u.config) && e.DeviceRound? && scheduling.Accepted? && scheduling.plan.Some?
    requires RoundFacts(u, v, w, scheduling, e.blocks) && (forall id | id in v.requests :: RequestOk(v.requests[id])) && OwnedTokens(w, ts)
    requires Served(u.config, w, d, e.blocks, scheduling.out.ids, scheduling.plan.value, e.kv, e.tiling, k)
    requires end == Epoch(d, Fed(ArgsOf(scheduling.plan.value, e.kv, e.tiling)), e.ctx).1 && end.status == OK
    ensures CohortTokens(d, w, scheduling.out, scheduling.plan.value, k, Cohort(w, scheduling.out, end.l.lanes), ts,
                         L.NextTenancies(d, Fed(ArgsOf(scheduling.plan.value, e.kv, e.tiling)), end, Restarted(d, scheduling.plan.value, ts)))
    ensures forall id | id in scheduling.out.ids && id in w.leases.owned :: Resident(w, id)
  {
    var out, p := scheduling.out, scheduling.plan.value;
    var d' := Epoch(d, Fed(ArgsOf(p, e.kv, e.tiling)), e.ctx).0;
    EpochAnswersPlan(p, e.kv, e.tiling, d, e.ctx, d', end);
    var r := Cohort(w, out, end.l.lanes);
    var ts' := L.NextTenancies(d, Fed(ArgsOf(p, e.kv, e.tiling)), end, Restarted(d, p, ts));
    forall id | id in out.ids
      ensures id in w.leases.owned ==> Resident(w, id)
      ensures id in r && id in w.requests && r[id].prompt == w.requests[id].prompt && TokensAreLease(ts'[w.leases.rows[id]], r[id])
      ensures RowStarts(d, p, w.leases, id, r[id].prompt, k, ts[w.leases.rows[id]], ts'[w.leases.rows[id]])
    {
      assert id in w.running && RequestScheduled(v, w, out, id);
      PlannedRequestKept(u, v, w, out, e.blocks, p, d, d', end.l.lanes, id);
      CohortPrompt(w, out, end.l.lanes, id);
      assert v.requests[id].prompt >= 1;
      OwnedIsResident(u.config, w, e.blocks, out.ids, p, id);
      RequestServedFrom(u.config, w, d, e.blocks, out.ids, p, e.kv, e.tiling, k, e.ctx, end, ts, id, r[id]);
    }
  }

  lemma ClosedTogether(u: Setup, v: View, w: View, scheduling: Scheduling, blocks: Blocks, k: StockCaches, d: Device, lanes: Lanes,
                       ts: L.Tenancies, ts': L.Tenancies)
    requires scheduling.Accepted? && scheduling.plan.Some? && RoundFacts(u, v, w, scheduling, blocks)
    requires CohortTokens(d, w, scheduling.out, scheduling.plan.value, k, Cohort(w, scheduling.out, lanes), ts, ts')
    ensures OwnedTokens(DeviceClosed(w, scheduling.out, scheduling.plan.value, DeviceSamples(w.leases, scheduling.out.ids, lanes)), ts')
  {
    AllOwned(u, w, blocks, scheduling.out.ids, scheduling.plan.value);
  }

  /** The plan of a round, and the requests the round is about. */
  lemma DeviceRoundKnown(u: Setup, s: Sys, e: Event, model: RowModel, k: StockCaches, ts: L.Tenancies)
    requires e.DeviceRound? && Lockstep.Inv(s) && DeviceEnabled(u, s, e) && Plain(u, s, e, model, k) && OwnedTokens(s.v, ts)
    ensures var (w, scheduling) := Schedules(u.config, u.maxRunning, s.v, e.base, e.blocks);
            && RoundFacts(u, s.v, w, scheduling, e.blocks) && OwnedTokens(w, ts) && StillOwned(s.v, w)
            && Served(u.config, w, s.d.(ready := true), e.blocks, scheduling.out.ids, scheduling.plan.value, e.kv, e.tiling, k)
  {
    var (w, scheduling) := Schedules(u.config, u.maxRunning, s.v, e.base, e.blocks);
    RoundHolds(u, s.v, e.base, e.blocks);
    OfferedPlan(u, s, e.base, e.blocks);
    AllTaken(u, s, e);
    forall q | q in scheduling.plan.value.requests
      ensures KnownToDevice(s.d.(ready := true), scheduling.plan.value, q)
    {
      assert KnownToDevice(s.d, scheduling.plan.value, q);
    }
    OwnedScheduled(s.v, w, scheduling.out);
    StillTogether(s.v, w, ts);
  }

  lemma DeviceRoundTogether(u: Setup, s: Sys, e: Event, model: RowModel, k: StockCaches, ts: L.Tenancies)
    requires ValidConfig(u.config) && e.DeviceRound? && Lockstep.Inv(s) && DeviceEnabled(u, s, e) && Plain(u, s, e, model, k)
    requires OwnedTokens(s.v, ts)
    ensures OwnedTokens(AfterDevice(u, s, e).v, TenanciesNext(u, s, e, ts))
  {
    var (w, scheduling) := Schedules(u.config, u.maxRunning, s.v, e.base, e.blocks);
    DeviceRoundKnown(u, s, e, model, k, ts);
    var d := s.d.(ready := true);
    var end := Epoch(d, Fed(ArgsOf(scheduling.plan.value, e.kv, e.tiling)), e.ctx).1;
    CohortTogether(u, s.v, w, scheduling, d, e, k, end, ts);
    ClosedTogether(u, s.v, w, scheduling, e.blocks, k, d, end.l.lanes, ts, TenanciesNext(u, s, e, ts));
  }

  /** The device's side of a device round. */
  lemma DeviceRoundHolds(u: Setup, s: Sys, e: Event, model: RowModel, k: StockCaches, ts: L.Tenancies)
    requires e.DeviceRound? && Lockstep.Inv(s) && DeviceEnabled(u, s, e) && Plain(u, s, e, model, k)
    requires L.Inv(model, s.d, ts) && NeverFailed(ts)
    ensures L.Inv(model, AfterDevice(u, s, e).d, TenanciesNext(u, s, e, ts)) && NeverFailed(TenanciesNext(u, s, e, ts))
  {
    var p := Schedules(u.config, u.maxRunning, s.v, e.base, e.blocks).1.plan.value;
    var a := ArgsOf(p, e.kv, e.tiling);
    FedValid(a);
    AllTaken(u, s, e);
    RoundSafe(u.config, u.maxRunning, s.v, e.base, e.blocks);
    RestartHolds(model, s.d.(ready := true), p, ts);
    EpochHoldsAll(model, s.d.(ready := true), Fed(a), e.ctx, Restarted(s.d.(ready := true), p, ts));
    StillNeverFailed(s.d.(ready := true), Fed(a), Epoch(s.d.(ready := true), Fed(a), e.ctx).1, Restarted(s.d.(ready := true), p, ts));
  }

  /** A row whose lease is taken over holds a valid state. */
  lemma RestartHolds(model: RowModel, d: Device, p: Plan, ts: L.Tenancies)
    requires L.Inv(model, d, ts) && NeverFailed(ts) && ValidPlan(p) && forall q | q in p.requests :: 0 <= q.row < BATCH && Taken(d, q)
    ensures L.Inv(model, d, Restarted(d, p, ts)) && NeverFailed(Restarted(d, p, ts))
  {
    forall r: nat | r < BATCH
      ensures L.Holds(model, RowOf(d, r), d.rows[r], Restart(d, p, ts[r], r))
    {
      assert L.Holds(model, RowOf(d, r), d.rows[r], ts[r]);
      if MistakenRow(d, p, r) {
        var q :| q in p.requests && q.row == r && Mistaken(d, q);
        assert ValidRequest(p, q) && SameLease(d.rows[r], q);
      }
    }
  }

  lemma StillNeverFailed(d: Device, e: EpochInput, end: Ending, ts: L.Tenancies)
    requires e.Typed() && NeverFailed(ts) && end.status == OK
    ensures NeverFailed(L.NextTenancies(d, e, end, ts))
  {
    forall r: nat | r < BATCH
      ensures !L.NextTenancies(d, e, end, ts)[r].Superseded?
    {
      TenancyAt(d, e, end, ts, r);
    }
  }

  lemma EpochHoldsAll(model: RowModel, d: Device, e: EpochInput, ctx: Context, ts: L.Tenancies)
    requires e.Typed() && RowLocal(ctx.runFlowModel, model) && e.table == IDENTITY_TABLE && L.Inv(model, d, ts)
    ensures var d0 := d.(ready := true); var (d', end) := Epoch(d0, e, ctx); L.Inv(model, d', L.NextTenancies(d0, e, end, ts))
  {
    var d0 := d.(ready := true);
    var (d', end) := Epoch(d0, e, ctx);
    forall r: nat | r < BATCH
      ensures L.Holds(model, RowOf(d', r), d'.rows[r], L.NextTenancies(d0, e, end, ts)[r])
    {
      assert L.Holds(model, RowOf(d, r), d.rows[r], ts[r]);
      L.EpochHolds(model, d0, e, ctx, d', end, ts[r], r);
      TenancyAt(d0, e, end, ts, r);
    }
  }

  lemma EventTogether(u: Setup, s: Sys, e: Event, model: RowModel, k: StockCaches, ts: L.Tenancies)
    requires ValidConfig(u.config) && Together(model, s, ts) && Enabled(u, s, e) && Plain(u, s, e, model, k)
    ensures Together(model, After(u, s, e), TenanciesNext(u, s, e, ts))
  {
    EventKeeps(u, s, e);
    if e.DeviceRound? {
      DeviceRoundTogether(u, s, e, model, k, ts);
      DeviceRoundHolds(u, s, e, model, k, ts);
    } else {
      OtherEventsLeave(u, s, e);
      StillTogether(s.v, After(u, s, e).v, ts);
    }
  }

  // ----- all runs

  /** The stock caches as they are at each event. */
  type Stocks = nat -> StockCaches

  /** Every event of a run is plain. */
  ghost predicate PlainRun(u: Setup, start: Sys, events: seq<Event>, model: RowModel, ks: Stocks)
    requires Run(u, start, events).Some?
  {
    events != [] ==>
      var before := events[..|events| - 1];
      && PlainRun(u, start, before, model, ks)
      && Plain(u, Run(u, start, before).value, events[|events| - 1], model, ks(|events| - 1))
  }

  /** Who has the rows after a run that starts from a device with tenancies `ts0`. */
  ghost function TenanciesOf(u: Setup, start: Sys, ts0: L.Tenancies, events: seq<Event>): L.Tenancies
    requires Run(u, start, events).Some?
  {
    if events == [] then ts0
    else
      var before := events[..|events| - 1];
      TenanciesNext(u, Run(u, start, before).value, events[|events| - 1], TenanciesOf(u, start, ts0, before))
  }

  /** Nothing scheduled yet, on a device that has done nothing or only its warm-up. */
  ghost predicate Begun(model: RowModel, start: Sys, ts0: L.Tenancies) { Fresh(start) && L.Inv(model, start.d, ts0) && NeverFailed(ts0) }

  lemma {:induction false} RunsTogether(u: Setup, start: Sys, ts0: L.Tenancies, events: seq<Event>, model: RowModel, ks: Stocks)
    requires ValidConfig(u.config) && Begun(model, start, ts0)
    requires Run(u, start, events).Some? && PlainRun(u, start, events, model, ks)
    ensures Together(model, Run(u, start, events).value, TenanciesOf(u, start, ts0, events))
    decreases |events|
  {
    if events != [] {
      var before := events[..|events| - 1];
      RunsTogether(u, start, ts0, before, model, ks);
      EventTogether(u, Run(u, start, before).value, events[|events| - 1], model, ks(|events| - 1), TenanciesOf(u, start, ts0, before));
    }
  }

  // ----- where the leases come from

  /** The event after `before` handed the request to the device with this state: its own scheduler block of the stock
      caches, its last token and its position. */
  ghost predicate HandedOver(u: Setup, start: Sys, before: seq<Event>, e: Event, k: StockCaches, id: ReqId, begin: RowState) {
    && e.DeviceRound? && Run(u, start, before).Some?
    && var s := Run(u, start, before).value;
       && Lockstep.Inv(s) && DeviceEnabled(u, s, e)
       && exists q :: q in Schedules(u.config, u.maxRunning, s.v, e.base, e.blocks).1.plan.value.requests
                      && q.id == id && q.importRequired && OwnKv(k, q, begin)
  }

  ghost predicate HandedOverIn(u: Setup, start: Sys, events: seq<Event>, ks: Stocks, id: ReqId, begin: RowState, j: nat) {
    j < |events| && HandedOver(u, start, events[..j], events[j], ks(j), id, begin)
  }

  /** The event after `before` took the request for the warm-up, whose row was in this state. */
  ghost predicate TookOver(u: Setup, start: Sys, before: seq<Event>, e: Event, id: ReqId, begin: RowState) {
    && e.DeviceRound? && Run(u, start, before).Some?
    && var s := Run(u, start, before).value;
       && Lockstep.Inv(s) && DeviceEnabled(u, s, e)
       && TakenOver(s.d, Schedules(u.config, u.maxRunning, s.v, e.base, e.blocks).1.plan.value, id, begin)
  }

  ghost predicate TookOverIn(u: Setup, start: Sys, events: seq<Event>, id: ReqId, begin: RowState, j: nat) {
    j < |events| && TookOver(u, start, events[..j], events[j], id, begin)
  }

  /** A longer prompt begins with the state it was handed over in, a one-token prompt at position 0 with zeroed KV, or,
      taken for the warm-up, in what that has left. */
  ghost predicate Begins(u: Setup, start: Sys, events: seq<Event>, ks: Stocks, id: ReqId, prompt: nat, begin: RowState) {
    if prompt > 1 then exists j: nat :: HandedOverIn(u, start, events, ks, id, begin, j)
    else
      || (begin.position == 0 && begin.kv == RowKV(ZeroRow(), ZeroRow()))
      || exists j: nat :: TookOverIn(u, start, events, id, begin, j)
  }

  lemma SamePrefix(events: seq<Event>, n: nat, j: nat)
    requires j < n <= |events|
    ensures events[..n][..j] == events[..j] && events[..n][j] == events[j]
  {
  }

  lemma HandedOverSame(u: Setup, start: Sys, a: seq<Event>, b: seq<Event>, e: Event, k: StockCaches, id: ReqId, begin: RowState)
    requires a == b && HandedOver(u, start, a, e, k, id, begin)
    ensures HandedOver(u, start, b, e, k, id, begin)
  {
  }

  lemma HandedOverStill(u: Setup, start: Sys, events: seq<Event>, n: nat, ks: Stocks, id: ReqId, begin: RowState, j: nat)
    requires n <= |events| && HandedOverIn(u, start, events[..n], ks, id, begin, j)
    ensures HandedOverIn(u, start, events, ks, id, begin, j)
  {
    SamePrefix(events, n, j);
    HandedOverSame(u, start, events[..n][..j], events[..j], events[j], ks(j), id, begin);
  }

  lemma TookOverSame(u: Setup, start: Sys, a: seq<Event>, b: seq<Event>, e: Event, id: ReqId, begin: RowState)
    requires a == b && TookOver(u, start, a, e, id, begin)
    ensures TookOver(u, start, b, e, id, begin)
  {
  }

  lemma TookOverStill(u: Setup, start: Sys, events: seq<Event>, n: nat, id: ReqId, begin: RowState, j: nat)
    requires n <= |events| && TookOverIn(u, start, events[..n], id, begin, j)
    ensures TookOverIn(u, start, events, id, begin, j)
  {
    SamePrefix(events, n, j);
    TookOverSame(u, start, events[..n][..j], events[..j], events[j], id, begin);
  }

  lemma BeginsLonger(u: Setup, start: Sys, events: seq<Event>, n: nat, ks: Stocks, id: ReqId, prompt: nat, begin: RowState)
    requires n <= |events| && Begins(u, start, events[..n], ks, id, prompt, begin)
    ensures Begins(u, start, events, ks, id, prompt, begin)
  {
    if prompt > 1 {
      var j: nat :| HandedOverIn(u, start, events[..n], ks, id, begin, j);
      HandedOverStill(u, start, events, n, ks, id, begin, j);
    } else if j: nat :| TookOverIn(u, start, events[..n], id, begin, j) {
      TookOverStill(u, start, events, n, id, begin, j);
    }
  }

  ghost predicate Origins(u: Setup, start: Sys, events: seq<Event>, ks: Stocks, v: View, ts: L.Tenancies) {
    forall id | Resident(v, id) ::
      && id in v.leases.rows && v.leases.rows[id] < BATCH && ts[v.leases.rows[id]].Held?
      && Begins(u, start, events, ks, id, v.requests[id].prompt, ts[v.leases.rows[id]].start)
  }

  lemma OriginsStill(u: Setup, start: Sys, events: seq<Event>, ks: Stocks, v: View, v': View, ts: L.Tenancies)
    requires events != [] && Origins(u, start, events[..|events| - 1], ks, v, ts) && StillOwned(v, v')
    ensures Origins(u, start, events, ks, v', ts)
  {
    forall id | Resident(v', id)
      ensures Begins(u, start, events, ks, id, v'.requests[id].prompt, ts[v'.leases.rows[id]].start)
    {
      BeginsLonger(u, start, events, |events| - 1, ks, id, v.requests[id].prompt, ts[v.leases.rows[id]].start);
    }
  }

  /** The cohort of a device round with its leases: tokens, and how they have started. */
  lemma CohortOfRound(u: Setup, s: Sys, e: Event, model: RowModel, k: StockCaches, ts: L.Tenancies) returns (w: View, scheduling: Scheduling, lanes: Lanes)
    requires ValidConfig(u.config) && e.DeviceRound? && Together(model, s, ts) && DeviceEnabled(u, s, e) && Plain(u, s, e, model, k)
    ensures (w, scheduling) == Schedules(u.config, u.maxRunning, s.v, e.base, e.blocks)
    ensures lanes == Epoch(s.d.(ready := true), Fed(ArgsOf(scheduling.plan.value, e.kv, e.tiling)), e.ctx).1.l.lanes
    ensures forall id | id in scheduling.out.ids :: id in scheduling.out.counts && id in w.leases.rows && w.leases.rows[id] < BATCH
    ensures CohortTokens(s.d.(ready := true), w, scheduling.out, scheduling.plan.value, k, Cohort(w, scheduling.out, lanes), ts, TenanciesNext(u, s, e, ts))
    ensures StillOwned(s.v, w) && RoundFacts(u, s.v, w, scheduling, e.blocks)
    ensures forall id | id in scheduling.out.ids && id in w.leases.owned :: Resident(w, id)
  {
    w, scheduling := Schedules(u.config, u.maxRunning, s.v, e.base, e.blocks).0, Schedules(u.config, u.maxRunning, s.v, e.base, e.blocks).1;
    DeviceRoundKnown(u, s, e, model, k, ts);
    var d := s.d.(ready := true);
    var end := Epoch(d, Fed(ArgsOf(scheduling.plan.value, e.kv, e.tiling)), e.ctx).1;
    lanes := end.l.lanes;
    CohortTogether(u, s.v, w, scheduling, d, e, k, end, ts);
  }

  lemma TakenOverReady(d: Device, p: Plan, id: ReqId, begin: RowState)
    requires TakenOver(d.(ready := true), p, id, begin)
    ensures TakenOver(d, p, id, begin)
  {
    var q :| q in p.requests && q.id == id && Mistaken(d.(ready := true), q) && FromWarmup(q) && begin == RowOf(d.(ready := true), q.row);
    assert Mistaken(d, q) && begin == RowOf(d, q.row);
  }

  /** A served request's lease begins as it should, if those the device owned already did. */
  lemma RowBegins(u: Setup, start: Sys, events: seq<Event>, ks: Stocks, p: Plan, l: Leases, id: ReqId, prompt: nat, before: L.Tenancy, after: L.Tenancy)
    requires events != []
    requires var first, e := events[..|events| - 1], events[|events| - 1];
             && e.DeviceRound? && Run(u, start, first).Some?
             && var s := Run(u, start, first).value;
                && Lockstep.Inv(s) && DeviceEnabled(u, s, e) && p == Schedules(u.config, u.maxRunning, s.v, e.base, e.blocks).1.plan.value
                && RowStarts(s.d.(ready := true), p, l, id, prompt, ks(|events| - 1), before, after)
    requires id in l.owned ==> before.Held? && Begins(u, start, events[..|events| - 1], ks, id, prompt, before.start)
    ensures Begins(u, start, events, ks, id, prompt, after.start)
  {
    var n := |events| - 1;
    if id in l.owned {
      BeginsLonger(u, start, events, n, ks, id, prompt, before.start);
    } else if prompt > 1 {
      assert HandedOver(u, start, events[..n], events[n], ks(n), id, after.start);
      assert HandedOverIn(u, start, events, ks, id, after.start, n);
    } else {
      var s := Run(u, start, events[..n]).value;
      if TakenOver(s.d.(ready := true), p, id, after.start) {
        TakenOverReady(s.d, p, id, after.start);
        assert TookOver(u, start, events[..n], events[n], id, after.start);
        assert TookOverIn(u, start, events, id, after.start, n);
      }
    }
  }

  /** The cohort of the last event of a run: every request of it, those it finishes too, begins as it should. */
  ghost predicate CohortBegins(u: Setup, start: Sys, events: seq<Event>, ks: Stocks, w: View, out: Output, r: Requests, ts': L.Tenancies) {
    forall id | id in out.ids ::
      && id in r && id in w.leases.rows && w.leases.rows[id] < BATCH && ts'[w.leases.rows[id]].Held?
      && Begins(u, start, events, ks, id, r[id].prompt, ts'[w.leases.rows[id]].start)
  }

  lemma OwnedBegan(u: Setup, start: Sys, events: seq<Event>, ks: Stocks, v: View, w: View, ts: L.Tenancies, id: ReqId)
    requires Origins(u, start, events, ks, v, ts) && StillOwned(v, w) && Resident(w, id)
    ensures w.leases.rows[id] < BATCH && ts[w.leases.rows[id]].Held?
    ensures Begins(u, start, events, ks, id, w.requests[id].prompt, ts[w.leases.rows[id]].start)
  {
  }

  lemma RoundBegins(u: Setup, start: Sys, events: seq<Event>, ks: Stocks, s: Sys, w: View, scheduling: Scheduling, r: Requests,
                    ts: L.Tenancies, ts': L.Tenancies)
    requires events != [] && events[|events| - 1].DeviceRound? && Run(u, start, events[..|events| - 1]) == Some(s)
    requires Lockstep.Inv(s) && DeviceEnabled(u, s, events[|events| - 1])
    requires (w, scheduling) == Schedules(u.config, u.maxRunning, s.v, events[|events| - 1].base, events[|events| - 1].blocks)
    requires CohortTokens(s.d.(ready := true), w, scheduling.out, scheduling.plan.value, ks(|events| - 1), r, ts, ts') && StillOwned(s.v, w)
    requires forall id | id in scheduling.out.ids && id in w.leases.owned :: Resident(w, id)
    requires Origins(u, start, events[..|events| - 1], ks, s.v, ts)
    ensures CohortBegins(u, start, events, ks, w, scheduling.out, r, ts')
  {
    forall id | id in scheduling.out.ids
      ensures Begins(u, start, events, ks, id, r[id].prompt, ts'[w.leases.rows[id]].start)
    {
      if id in w.leases.owned { OwnedBegan(u, start, events[..|events| - 1], ks, s.v, w, ts, id); }
      RowBegins(u, start, events, ks, scheduling.plan.value, w.leases, id, r[id].prompt, ts[w.leases.rows[id]], ts'[w.leases.rows[id]]);
    }
  }

  /** What the device owns after the round is the cohort. */
  lemma ClosedOrigins(u: Setup, start: Sys, events: seq<Event>, ks: Stocks, v: View, w: View, scheduling: Scheduling, blocks: Blocks, lanes: Lanes,
                      ts': L.Tenancies)
    requires scheduling.Accepted? && scheduling.plan.Some? && RoundFacts(u, v, w, scheduling, blocks)
    requires forall id | id in scheduling.out.ids :: id in scheduling.out.counts && id in w.leases.rows && w.leases.rows[id] < BATCH
    requires CohortBegins(u, start, events, ks, w, scheduling.out, Cohort(w, scheduling.out, lanes), ts')
    ensures Origins(u, start, events, ks, DeviceClosed(w, scheduling.out, scheduling.plan.value, DeviceSamples(w.leases, scheduling.out.ids, lanes)), ts')
  {
    AllOwned(u, w, blocks, scheduling.out.ids, scheduling.plan.value);
  }

  lemma LastOrigins(u: Setup, start: Sys, events: seq<Event>, ks: Stocks, model: RowModel, s: Sys, ts: L.Tenancies)
    requires ValidConfig(u.config) && events != [] && Run(u, start, events[..|events| - 1]) == Some(s) && Together(model, s, ts)
    requires Enabled(u, s, events[|events| - 1]) && Plain(u, s, events[|events| - 1], model, ks(|events| - 1))
    requires Origins(u, start, events[..|events| - 1], ks, s.v, ts)
    ensures Origins(u, start, events, ks, After(u, s, events[|events| - 1]).v, TenanciesNext(u, s, events[|events| - 1], ts))
  {
    var e := events[|events| - 1];
    if e.DeviceRound? {
      var w, scheduling, lanes := CohortOfRound(u, s, e, model, ks(|events| - 1), ts);
      RoundBegins(u, start, events, ks, s, w, scheduling, Cohort(w, scheduling.out, lanes), ts, TenanciesNext(u, s, e, ts));
      ClosedOrigins(u, start, events, ks, s.v, w, scheduling, e.blocks, lanes, TenanciesNext(u, s, e, ts));
    } else {
      OtherEventsLeave(u, s, e);
      OriginsStill(u, start, events, ks, s.v, After(u, s, e).v, ts);
    }
  }

  lemma {:induction false} RunsBegin(u: Setup, start: Sys, ts0: L.Tenancies, events: seq<Event>, model: RowModel, ks: Stocks)
    requires ValidConfig(u.config) && Begun(model, start, ts0)
    requires Run(u, start, events).Some? && PlainRun(u, start, events, model, ks)
    ensures Origins(u, start, events, ks, Run(u, start, events).value.v, TenanciesOf(u, start, ts0, events))
    decreases |events|
  {
    if events != [] {
      var before := events[..|events| - 1];
      RunsBegin(u, start, ts0, before, model, ks);
      RunsTogether(u, start, ts0, before, model, ks);
      LastOrigins(u, start, events, ks, model, Run(u, start, before).value, TenanciesOf(u, start, ts0, before));
    }
  }

  // ----- decoded as if alone

  /** The request's tokens from the start of its lease on are the one-request decoder's, and its row holds the state
      that decoder reached. */
  ghost predicate Decoded(model: RowModel, begin: RowState, row: RowState, q: Request) {
    && 0 <= begin.position < |q.tokens| && q.tokens[begin.position] == begin.token
    && Replay(model, begin, |q.tokens| - 1 - begin.position) == (row, q.tokens[begin.position + 1..])
  }

  lemma LeaseIsDecoded(model: RowModel, d: Device, ts: L.Tenancies, r: nat, q: Request)
    requires r < BATCH && L.Inv(model, d, ts) && TokensAreLease(ts[r], q)
    ensures Decoded(model, ts[r].start, RowOf(d, r), q)
  {
    assert L.Holds(model, RowOf(d, r), d.rows[r], ts[r]);
  }

  /** After any run, every request the device holds is decoded as if it were alone: from its own scheduler block of the
      stock caches as they were when it was handed over, or, for a one-token prompt, from zeroed KV, unless it was taken
      for the warm-up. */
  lemma OwnedRequestsDecoded(u: Setup, start: Sys, ts0: L.Tenancies, events: seq<Event>, model: RowModel, ks: Stocks, id: ReqId)
    requires ValidConfig(u.config) && Begun(model, start, ts0)
    requires Run(u, start, events).Some? && PlainRun(u, start, events, model, ks)
    requires Resident(Run(u, start, events).value.v, id)
    ensures var s := Run(u, start, events).value;
            && id in s.v.leases.rows && s.v.leases.rows[id] < BATCH
            && var row, q := s.v.leases.rows[id], s.v.requests[id];
               var t := TenanciesOf(u, start, ts0, events)[row];
               t.Held? && Begins(u, start, events, ks, id, q.prompt, t.start) && Decoded(model, t.start, RowOf(s.d, row), q)
  {
    RunsTogether(u, start, ts0, events, model, ks);
    RunsBegin(u, start, ts0, events, model, ks);
    var s := Run(u, start, events).value;
    LeaseIsDecoded(model, s.d, TenanciesOf(u, start, ts0, events), s.v.leases.rows[id], s.v.requests[id]);
  }

  /** The same for every request of a device round that ends a run, those the round finishes too. */
  lemma CohortDecoded(u: Setup, start: Sys, ts0: L.Tenancies, events: seq<Event>, model: RowModel, ks: Stocks)
    returns (s: Sys, w: View, scheduling: Scheduling, lanes: Lanes)
    requires ValidConfig(u.config) && Begun(model, start, ts0) && Run(u, start, events).Some? && PlainRun(u, start, events, model, ks)
    requires events != [] && events[|events| - 1].DeviceRound?
    ensures Run(u, start, events[..|events| - 1]) == Some(s) && Lockstep.Inv(s) && DeviceEnabled(u, s, events[|events| - 1])
    ensures var e := events[|events| - 1];
            && (w, scheduling) == Schedules(u.config, u.maxRunning, s.v, e.base, e.blocks)
            && lanes == Epoch(s.d.(ready := true), Fed(ArgsOf(scheduling.plan.value, e.kv, e.tiling)), e.ctx).1.l.lanes
    ensures forall id | id in scheduling.out.ids :: id in scheduling.out.counts && id in w.leases.rows && w.leases.rows[id] < BATCH
    ensures var r, ts' := Cohort(w, scheduling.out, lanes), TenanciesOf(u, start, ts0, events);
            && CohortBegins(u, start, events, ks, w, scheduling.out, r, ts')
            && forall id | id in scheduling.out.ids ::
                 id in r && Decoded(model, ts'[w.leases.rows[id]].start, RowOf(Run(u, start, events).value.d, w.leases.rows[id]), r[id])
  {
    var before, e := events[..|events| - 1], events[|events| - 1];
    s := Run(u, start, before).value;
    var ts := TenanciesOf(u, start, ts0, before);
    RunsTogether(u, start, ts0, before, model, ks);
    RunsBegin(u, start, ts0, before, model, ks);
    w, scheduling, lanes := CohortOfRound(u, s, e, model, ks(|events| - 1), ts);
    RoundBegins(u, start, events, ks, s, w, scheduling, Cohort(w, scheduling.out, lanes), ts, TenanciesNext(u, s, e, ts));
    RunsTogether(u, start, ts0, events, model, ks);
    CohortLeases(model, Run(u, start, events).value.d, s.d.(ready := true), w, scheduling.out, scheduling.plan.value, ks(|events| - 1),
                 Cohort(w, scheduling.out, lanes), ts, TenanciesOf(u, start, ts0, events));
  }

  lemma CohortLeases(model: RowModel, d: Device, d0: Device, w: View, out: Output, p: Plan, k: StockCaches, r: Requests, ts: L.Tenancies, ts': L.Tenancies)
    requires CohortTokens(d0, w, out, p, k, r, ts, ts') && L.Inv(model, d, ts')
    ensures forall id | id in out.ids :: id in r && Decoded(model, ts'[w.leases.rows[id]].start, RowOf(d, w.leases.rows[id]), r[id])
  {
    forall id | id in out.ids
      ensures Decoded(model, ts'[w.leases.rows[id]].start, RowOf(d, w.leases.rows[id]), r[id])
    {
      LeaseIsDecoded(model, d, ts', w.leases.rows[id], r[id]);
    }
  }
}
