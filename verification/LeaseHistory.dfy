/** What a row holds after any sequence of controller calls: its lease, replayed by the one-request decoder. */
module LeaseHistory {
  import opened Layout
  import opened Flow
  import opened EpochSpec
  import opened EpochRows
  import opened RowDecoder

  /** Who has a row: nobody yet; a lease whose KV a failed call has cleared for another generation; or the lease of a
      generation, with the state it started from and all the tokens reported for it since. */
  datatype Tenancy = Free | Superseded | Held(generation: int, start: RowState, tokens: seq<int>)
  type Tenancies = s: seq<Tenancy> | |s| == BATCH witness [Free, Free, Free, Free]

  /** A lease that begins with an import starts from the payload's blocks over zeros. */
  function ImportState(e: EpochInput, r: nat): RowState
    requires e.importing && e.Typed() && r < BATCH
  {
    RowState(RowKV(ImportedRow(e.payload, 0, r), ImportedRow(e.payload, HALF_BLOCKS, r)), e.rows[r].token, e.rows[r].position)
  }

  /** Any other lease starts at position 0 from zeroed KV. */
  function FreshState(e: EpochInput, r: nat): RowState
    requires r < BATCH
  {
    RowState(RowKV(ZeroRow(), ZeroRow()), e.rows[r].token, 0)
  }

  function Extend(t: Tenancy, made: seq<int>): Tenancy {
    if t.Held? then Held(t.generation, t.start, t.tokens + made) else t
  }

  ghost function AfterImport(e: EpochInput, t: Tenancy, r: nat): Tenancy
    requires e.Typed() && r < BATCH
  {
    if InputStatus(e) == OK && Imports(e, r) then Held(e.rows[r].generation, ImportState(e, r), []) else t
  }

  /** How one call changes a row's tenancy; `made` is what the call reported for the row. */
  ghost function NextTenancy(d: Device, e: EpochInput, status: int, made: seq<int>, t: Tenancy, r: nat): Tenancy
    requires e.Typed() && r < BATCH
  {
    var t1 := AfterImport(e, t, r);
    if Admit(d, e).1 != OK || e.rows[r].active == 0 then t1
    else if NewLease(Import(d, e).0.rows[r], e.rows[r]) then
      if status == OK then Held(e.rows[r].generation, FreshState(e, r), made) else Superseded
    else if status == OK then Extend(t1, made)
    else t1
  }

  ghost function NextTenancies(d: Device, e: EpochInput, end: Ending, ts: Tenancies): Tenancies
    requires e.Typed()
  {
    var made := end.l.lanes;
    [NextTenancy(d, e, end.status, made[0].made, ts[0], 0), NextTenancy(d, e, end.status, made[1].made, ts[1], 1),
     NextTenancy(d, e, end.status, made[2].made, ts[2], 2), NextTenancy(d, e, end.status, made[3].made, ts[3], 3)]
  }

  /** A held row is exactly its lease replayed: generation, KV, token, position, and length one more than the position. */
  ghost predicate Holds(model: RowModel, s: RowState, m: Meta, t: Tenancy) {
    match t
    case Free => m.valid == 0
    case Superseded => true
    case Held(generation, start, tokens) =>
      m.generation == generation && m.valid == 1 && m.length == m.position + 1 && Replay(model, start, |tokens|) == (s, tokens)
  }

  ghost predicate Inv(model: RowModel, d: Device, ts: Tenancies) {
    forall r: nat | r < BATCH :: Holds(model, RowOf(d, r), d.rows[r], ts[r])
  }

  // ----- one call, one row

  lemma ImportHolds(model: RowModel, d: Device, e: EpochInput, t: Tenancy, r: nat)
    requires e.Typed() && InputStatus(e) == OK && r < BATCH && Holds(model, RowOf(d, r), d.rows[r], t)
    ensures var d1 := Import(d, e).0; Holds(model, RowOf(d1, r), d1.rows[r], AfterImport(e, t, r))
  {
    ImportEffect(d, e);
    var d1 := Import(d, e).0;
    assert RowStatus(e, r) == OK;
    if Imports(e, r) {
      assert RowImported(e, d1, r);
    } else {
      assert RowUntouched(d, d1, r);
      assert RowOf(d1, r) == RowOf(d, r);
    }
  }

  /** An admitted call that stops in the decode loop keeps what it did not clear. */
  lemma HaltHolds(model: RowModel, d1: Device, e: EpochInput, t: Tenancy, r: nat)
    requires r < BATCH && Holds(model, RowOf(d1, r), d1.rows[r], t)
    requires e.rows[r].active == 0 || !NewLease(d1.rows[r], e.rows[r])
    ensures var d2 := ClearNew(d1, e); Holds(model, RowOf(d2, r), d2.rows[r], t)
  {
    ClearEffect(d1, e, r);
    assert RowUntouched(d1, ClearNew(d1, e), r);
  }

  /** The state an active row starts its steps in is that of its tenancy. */
  lemma StartOfTenancy(d: Device, e: EpochInput, r: nat)
    requires e.Typed() && Admit(d, e).1 == OK && r < BATCH && e.rows[r].active != 0
    ensures var d1 := Import(d, e).0;
            StartState(d, e, r) == if NewLease(d1.rows[r], e.rows[r]) then FreshState(e, r) else RowOf(d1, r)
  {
    var d1 := Import(d, e).0;
    ClearEffect(d1, e, r);
    assert Continues(d1.rows[r], e.rows[r]);
    if !NewLease(d1.rows[r], e.rows[r]) { assert RowUntouched(d1, ClearNew(d1, e), r); }
  }

  lemma ReplayFurther(model: RowModel, start: RowState, tokens: seq<int>, s: RowState, eos: int, n: nat)
    requires Replay(model, start, |tokens|) == (s, tokens)
    ensures var (s', made) := DecodeRow(model, s, eos, n);
            Replay(model, start, |tokens + made|) == (s', tokens + made)
  {
    var (s', made) := DecodeRow(model, s, eos, n);
    DecodeIsReplay(model, s, eos, n);
    ReplayAppend(model, start, |tokens|, |made|);
  }

  lemma FreshReplay(model: RowModel, start: RowState, eos: int, n: nat)
    ensures var (s', made) := DecodeRow(model, start, eos, n); Replay(model, start, |made|) == (s', made)
  {
    DecodeIsReplay(model, start, eos, n);
  }

  /** An active row after a successful epoch. */
  lemma CommitHolds(model: RowModel, d: Device, e: EpochInput, ctx: Context, d': Device, end: Ending, t: Tenancy, r: nat)
    requires e.Typed() && Epoch(d, e, ctx) == (d', end) && end.status == OK && r < BATCH && e.rows[r].active != 0
    requires RowLocal(ctx.runFlowModel, model) && e.table == IDENTITY_TABLE
    requires var d1 := Import(d, e).0; Holds(model, RowOf(d1, r), d1.rows[r], t)
    ensures Holds(model, RowOf(d', r), d'.rows[r],
                  if NewLease(Import(d, e).0.rows[r], e.rows[r]) then Held(e.rows[r].generation, FreshState(e, r), end.l.lanes[r].made)
                  else Extend(t, end.l.lanes[r].made))
  {
    EpochDecodes(d, e, ctx, d', end, model, r);
    EpochShape(d, e, ctx, d', end);
    assert RowMoved(d.rows[r], e.rows[r], d'.rows[r], end.l.lanes[r].made);
    StartOfTenancy(d, e, r);
    var d1 := Import(d, e).0;
    assert Continues(d1.rows[r], e.rows[r]);
    if NewLease(d1.rows[r], e.rows[r]) {
      FreshReplay(model, FreshState(e, r), e.rows[r].eos, e.maxSteps);
    } else if t.Held? {
      ReplayFurther(model, t.start, t.tokens, RowOf(d1, r), e.rows[r].eos, e.maxSteps);
    }
  }

  lemma IdleHolds(model: RowModel, d: Device, e: EpochInput, ctx: Context, d': Device, end: Ending, t: Tenancy, r: nat)
    requires e.Typed() && Epoch(d, e, ctx) == (d', end) && end.status == OK && r < BATCH && e.rows[r].active == 0
    requires RowLocal(ctx.runFlowModel, model) && e.table == IDENTITY_TABLE && Holds(model, RowOf(d, r), d.rows[r], t)
    ensures Holds(model, RowOf(d', r), d'.rows[r], t)
    ensures !Imports(e, r)
  {
    EpochDecodes(d, e, ctx, d', end, model, r);
    assert RowUntouched(d, d', r);
    ImportEffect(d, e);
  }

  /** One call keeps one row's tenancy, whatever the call's status. */
  lemma EpochHolds(model: RowModel, d: Device, e: EpochInput, ctx: Context, d': Device, end: Ending, t: Tenancy, r: nat)
    requires e.Typed() && Epoch(d, e, ctx) == (d', end) && r < BATCH
    requires RowLocal(ctx.runFlowModel, model) && e.table == IDENTITY_TABLE
    requires Holds(model, RowOf(d, r), d.rows[r], t)
    ensures Holds(model, RowOf(d', r), d'.rows[r], NextTenancy(d, e, end.status, end.l.lanes[r].made, t, r))
  {
    if InputStatus(e) == OK {
      ImportHolds(model, d, e, t, r);
      var d1 := Import(d, e).0;
      var t1 := AfterImport(e, t, r);
      if Admit(d, e).1 == OK {
        if end.status != OK {
          assert d' == ClearNew(d1, e);
          if e.rows[r].active == 0 || !NewLease(d1.rows[r], e.rows[r]) { HaltHolds(model, d1, e, t1, r); }
        } else if e.rows[r].active == 0 {
          IdleHolds(model, d, e, ctx, d', end, t, r);
        } else {
          CommitHolds(model, d, e, ctx, d', end, t1, r);
        }
      }
    }
  }

  // ----- all calls

  datatype Call = Call(inputs: seq<Tensor>, ctx: Context)

  /** Calls with the identity block table, whose decoder graph computes `model` on every row. */
  ghost predicate Lawful(c: Call, model: RowModel) {
    && RowLocal(c.ctx.runFlowModel, model)
    && (Decode(c.inputs, c.ctx).Some? ==> Decode(c.inputs, c.ctx).value.table == IDENTITY_TABLE)
  }

  function After(calls: seq<Call>): Device {
    if calls == [] then Initial()
    else
      var c := calls[|calls| - 1];
      Proc(After(calls[..|calls| - 1]), c.inputs, c.ctx).0
  }

  ghost function CallTenancies(d: Device, c: Call, ts: Tenancies): Tenancies {
    var decoded := Decode(c.inputs, c.ctx);
    if decoded.None? || !(d.ready || c.ctx.cachesAllocated) then ts
    else
      var d0 := d.(ready := true);
      NextTenancies(d0, decoded.value, Epoch(d0, decoded.value, c.ctx).1, ts)
  }

  ghost function TenanciesAfter(calls: seq<Call>): Tenancies {
    if calls == [] then [Free, Free, Free, Free]
    else
      var before := calls[..|calls| - 1];
      CallTenancies(After(before), calls[|calls| - 1], TenanciesAfter(before))
  }

  lemma CallHolds(model: RowModel, d: Device, c: Call, ts: Tenancies)
    requires Lawful(c, model) && Inv(model, d, ts)
    ensures Inv(model, Proc(d, c.inputs, c.ctx).0, CallTenancies(d, c, ts))
  {
    var decoded := Decode(c.inputs, c.ctx);
    if decoded.Some? && (d.ready || c.ctx.cachesAllocated) {
      var d0, e := d.(ready := true), decoded.value;
      var (d', end) := Epoch(d0, e, c.ctx);
      var ts' := NextTenancies(d0, e, end, ts);
      forall r: nat | r < BATCH
        ensures Holds(model, RowOf(d', r), d'.rows[r], ts'[r])
      {
        assert Holds(model, RowOf(d, r), d.rows[r], ts[r]);
        EpochHolds(model, d0, e, c.ctx, d', end, ts[r], r);
        assert ts'[r] == NextTenancy(d0, e, end.status, end.l.lanes[r].made, ts[r], r);
      }
    }
  }

  /** After any sequence of calls, successful or not, every held row's KV, token, position and length are those
      of the one-request decoder run over that lease's reported tokens, from zeroed KV or from its imported
      blocks. What the row held before, and what other rows hold, plays no part. */
  lemma {:induction false} HeldRowsReplay(calls: seq<Call>, model: RowModel)
    requires forall c | c in calls :: Lawful(c, model)
    ensures Inv(model, After(calls), TenanciesAfter(calls))
  {
    if calls != [] {
      var before := calls[..|calls| - 1];
      HeldRowsReplay(before, model);
      assert calls[|calls| - 1] in calls;
      CallHolds(model, After(before), calls[|calls| - 1], TenanciesAfter(before));
    }
  }
}
