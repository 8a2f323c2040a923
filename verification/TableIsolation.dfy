/** Clears and imports go by the identity layout, the decoder by the call's block table: for exactly which tables that
    keeps rows apart. */
module TableIsolation {
  import opened Layout
  import opened Flow
  import opened EpochSpec
  import opened EpochRows
  import opened AnsweringDecoder

  /** The cache entry in which a table keeps all of a row's positions in one layer. */
  function TableEntry(t: Table, s: nat, layer: nat): (i: nat)
    requires ValidTable(t) && s < BATCH && layer < LAYERS
    ensures i < CACHE_BLOCKS && i % PHYSICAL_BLOCKS == t[2 * s]
  {
    layer * PHYSICAL_BLOCKS + t[2 * s]
  }

  /** Every slot of a row lies in that block: the capacity is below the block size. */
  lemma SlotsInEntry(t: Table, s: nat, position: int)
    requires ValidTable(t) && s < BATCH && 0 <= position < LOGICAL_CAPACITY
    ensures ComputeSlot(t, s, position) / BLOCK_SIZE == t[2 * s]
  {
    assert position / BLOCK_SIZE == 0;
  }

  /** What the table calls row `s` is as it was. */
  ghost predicate KeepsTableRow(d: Device, d': Device, t: Table, s: nat)
    requires ValidTable(t) && s < BATCH
  {
    forall layer: nat | layer < LAYERS ::
      d'.key[TableEntry(t, s, layer)] == d.key[TableEntry(t, s, layer)] && d'.value[TableEntry(t, s, layer)] == d.value[TableEntry(t, s, layer)]
  }

  datatype Called = Called(e: EpochInput, ctx: Context)

  /** Calls that use this table. */
  ghost predicate Using(t: Table, calls: seq<Called>) { forall c | c in calls :: c.e.Typed() && c.e.table == t }

  /** The device after these calls. */
  ghost function AfterCalls(t: Table, calls: seq<Called>): Device
    requires Using(t, calls)
  {
    if calls == [] then Initial()
    else
      var last := calls[|calls| - 1];
      assert last in calls;
      Epoch(AfterCalls(t, calls[..|calls| - 1]).(ready := true), last.e, last.ctx).0
  }

  /** After any calls with this table, every admitted one leaves alone the rows it neither imports nor leases anew. */
  ghost predicate Isolating(t: Table)
    requires ValidTable(t)
  {
    forall calls: seq<Called>, e: EpochInput, s: nat |
      && s < BATCH && Using(t, calls) && e.Typed() && e.table == t && Admit(AfterCalls(t, calls), e).1 == OK
      && !Imports(e, s) && !NewLease(Import(AfterCalls(t, calls), e).0.rows[s], e.rows[s]) ::
      KeepsTableRow(AfterCalls(t, calls), Prepared(AfterCalls(t, calls), e), t, s)
  }

  /** The table gives every row a block the identity layout gives it too. */
  predicate Homes(t: Table) { forall s: nat | s < BATCH :: t[2 * s] / 2 == s }

  lemma HomesIsolate(t: Table, d: Device, e: EpochInput, s: nat)
    requires ValidTable(t) && s < BATCH && t[2 * s] / 2 == s && e.Typed() && Admit(d, e).1 == OK
    requires !Imports(e, s) && !NewLease(Import(d, e).0.rows[s], e.rows[s])
    ensures KeepsTableRow(d, Prepared(d, e), t, s)
  {
    ImportEffect(d, e);
    var d1, d2 := Import(d, e).0, Prepared(d, e);
    ClearEffect(d1, e, s);
    assert RowUntouched(d, d1, s) && RowUntouched(d1, d2, s);
    forall layer: nat | layer < LAYERS
      ensures d2.key[TableEntry(t, s, layer)] == d.key[TableEntry(t, s, layer)]
      ensures d2.value[TableEntry(t, s, layer)] == d.value[TableEntry(t, s, layer)]
    {
      var i := TableEntry(t, s, layer);
      assert OwnerRow(i) == s;
      CacheEntry(d.key, i);
      CacheEntry(d2.key, i);
      CacheEntry(d.value, i);
      CacheEntry(d2.value, i);
    }
  }

  // ----- any other table fails

  function Ones(): Block { seq<Byte>(BLOCK_BYTES, _ => 1) }

  /** A decoder that fills the row's block of the first layer. */
  function Fills(t: Table, s: nat): Writing
    requires ValidTable(t) && s < BATCH
  {
    (c: Cache) => c[TableEntry(t, s, 0) := Ones()]
  }

  function LeaseRow(t: Table, leased: nat, generation: int, r: nat): RowInput
    requires r < BATCH
  {
    if r == leased then RowInput(generation, 0, 0, 1, ComputeSlot(t, r, 0), 1, 0) else RowInput(0, 0, 0, 0, ComputeSlot(t, r, 0), 0, 0)
  }

  /** One step of one new lease. */
  function LeaseCall(t: Table, leased: nat, generation: int): EpochInput {
    EpochInput(1, 0, 0, false, 0, [],
               [LeaseRow(t, leased, generation, 0), LeaseRow(t, leased, generation, 1),
                LeaseRow(t, leased, generation, 2), LeaseRow(t, leased, generation, 3)], t, [])
  }

  lemma LeaseCallAdmitted(d: Device, t: Table, leased: nat, generation: int)
    requires ValidTable(t) && leased < BATCH && generation > 0 && d.rows[leased].generation != generation
    ensures var e := LeaseCall(t, leased, generation);
            && e.Typed() && InputStatus(e) == OK && Admit(d, e).1 == OK && Import(d, e) == (d, OK)
            && forall r: nat | r < BATCH :: e.rows[r] == LeaseRow(t, leased, generation, r)
  {
    var e := LeaseCall(t, leased, generation);
    forall r: nat | r < BATCH
      ensures e.rows[r] == LeaseRow(t, leased, generation, r) && RowStatus(e, r) == OK && Continues(d.rows[r], e.rows[r])
      ensures 0 <= e.rows[r].eos < VOCAB_SIZE
    {
      assert e.rows[r] == LeaseRow(t, leased, generation, r);
    }
    assert EosInRange(e);
  }

  const TOKEN := 5

  /** Its one step. */
  lemma LeaseSteps(d: Device, t: Table, leased: nat, generation: int, writing: Writing) returns (l: Loop)
    requires ValidTable(t) && leased < BATCH && InputStatus(LeaseCall(t, leased, generation)) == OK
    ensures var e := LeaseCall(t, leased, generation);
            && RunLoop(Always(TOKEN, writing), e, Start(e, d)) == Go(l) && l.key == writing(d.key)
            && forall r: nat | r < BATCH :: l.lanes[r] == Answered(e, StartLane(e.rows[r]), r, TOKEN)
  {
    var e := LeaseCall(t, leased, generation);
    var start := Start(e, d);
    StartShape(e, d);
    StepAnswers(e, start, TOKEN, writing);
    l := Step(Always(TOKEN, writing), e, start).l;
    assert e.rows[leased] == LeaseRow(t, leased, generation, leased);
    assert start.lanes[leased] == StartLane(e.rows[leased]) && Busy(start.lanes);
    assert RunLoop(Always(TOKEN, writing), e, l) == Go(l);
  }

  /** What the call does: it clears the lease's row, lets the decoder write, and commits one token. */
  lemma LeaseCallDoes(d: Device, t: Table, leased: nat, generation: int, writing: Writing)
    requires ValidTable(t) && leased < BATCH && generation > 0 && d.rows[leased].generation != generation
    ensures var e := LeaseCall(t, leased, generation);
            var (d', end) := Epoch(d, e, Always(TOKEN, writing));
            && e.Typed() && end.status == OK
            && d'.key == writing(ClearedCache(d.key, d, e)) && d'.rows[leased] == Meta(generation, TOKEN, 1, 2, 1)
            && forall r: nat | r < BATCH && r != leased :: d'.rows[r] == d.rows[r]
  {
    var e := LeaseCall(t, leased, generation);
    LeaseCallAdmitted(d, t, leased, generation);
    var l := LeaseSteps(ClearNew(d, e), t, leased, generation, writing);
    var d' := Commit(ClearNew(d, e), e, l);
    assert Epoch(d, e, Always(TOKEN, writing)) == Decoded(d, e, Always(TOKEN, writing), 0) == (d', Ending(OK, 0, Finished(e, l)));
    forall r: nat | r < BATCH
      ensures d'.rows[r] == if r == leased then Meta(generation, TOKEN, 1, 2, 1) else d.rows[r]
    {
      assert d'.rows[r] == CommitRow(d.rows[r], e.rows[r], l.lanes[r]);
      RowCommitted(d.rows[r], t, leased, generation, r);
    }
  }

  lemma RowCommitted(m: Meta, t: Table, leased: nat, generation: int, r: nat)
    requires r < BATCH && leased < BATCH
    ensures var e := LeaseCall(t, leased, generation);
            CommitRow(m, e.rows[r], Answered(e, StartLane(e.rows[r]), r, TOKEN)) == if r == leased then Meta(generation, TOKEN, 1, 2, 1) else m
  {
    assert LeaseCall(t, leased, generation).rows[r] == LeaseRow(t, leased, generation, r);
  }

  /** With any other table, two calls on a new device: row s is leased and holds KV; then a lease of another row leaves
      it its lease and wipes out its KV. */
  lemma LeaseWipes(t: Table, s: nat)
    requires ValidTable(t) && s < BATCH && t[2 * s] / 2 != s
    ensures var leased := t[2 * s] / 2;
            var first, second := LeaseCall(t, s, 1), LeaseCall(t, leased, 2);
            && first.Typed() && second.Typed()
            && var (d1, end1) := Epoch(Initial().(ready := true), first, Always(TOKEN, Fills(t, s)));
               var (d2, end2) := Epoch(d1, second, Always(TOKEN, Unwritten()));
               && end1.status == OK && end2.status == OK
               && d1.rows[s] == d2.rows[s] == Meta(1, TOKEN, 1, 2, 1) && second.rows[s].active == 0
               && d1.key[TableEntry(t, s, 0)] == Ones() && d2.key[TableEntry(t, s, 0)] == ZeroBlock() != Ones()
  {
    var leased, i := t[2 * s] / 2, TableEntry(t, s, 0);
    var d0 := Initial().(ready := true);
    LeaseCallDoes(d0, t, s, 1, Fills(t, s));
    var d1 := Epoch(d0, LeaseCall(t, s, 1), Always(TOKEN, Fills(t, s))).0;
    LeaseCallDoes(d1, t, leased, 2, Unwritten());
    LeaseCallAdmitted(d1, t, leased, 2);
    assert OwnerRow(i) == leased && Clears(d1, LeaseCall(t, leased, 2), i);
    assert ZeroBlock()[0] != Ones()[0];
  }

  /** A new lease of the row that owns the block in the identity layout is such a call, whoever is in the block. */
  lemma LeaseClears(d: Device, t: Table, s: nat)
    requires ValidTable(t) && s < BATCH && t[2 * s] / 2 != s && d.key[TableEntry(t, s, 0)] == Ones() && d.rows[t[2 * s] / 2].generation != 2
    ensures var e := LeaseCall(t, t[2 * s] / 2, 2);
            && e.Typed() && e.table == t && Admit(d, e).1 == OK && !Imports(e, s) && !NewLease(Import(d, e).0.rows[s], e.rows[s])
            && !KeepsTableRow(d, Prepared(d, e), t, s)
  {
    var leased, i := t[2 * s] / 2, TableEntry(t, s, 0);
    var e := LeaseCall(t, leased, 2);
    LeaseCallAdmitted(d, t, leased, 2);
    assert e.rows[s] == LeaseRow(t, leased, 2, s);
    assert OwnerRow(i) == leased && Clears(d, e, i);
    assert Prepared(d, e).key[i] == ZeroBlock();
    assert ZeroBlock()[0] != Ones()[0];
  }

  lemma AfterOne(t: Table, c: Called)
    requires c.e.Typed() && c.e.table == t
    ensures Using(t, [c]) && AfterCalls(t, [c]) == Epoch(Initial().(ready := true), c.e, c.ctx).0
  {
    assert [c][..0] == [];
    assert AfterCalls(t, []) == Initial();
  }

  lemma WipedNotIsolating(t: Table, s: nat)
    requires ValidTable(t) && s < BATCH && t[2 * s] / 2 != s
    ensures !Isolating(t)
  {
    var c := Called(LeaseCall(t, s, 1), Always(TOKEN, Fills(t, s)));
    AfterOne(t, c);
    LeaseCallDoes(Initial().(ready := true), t, s, 1, Fills(t, s));
    LeaseClears(AfterCalls(t, [c]), t, s);
  }

  /** Rows stay apart if and only if the table keeps every row's positions in one of the row's own two blocks. */
  lemma IsolatingTables(t: Table)
    requires ValidTable(t)
    ensures Isolating(t) <==> Homes(t)
  {
    if Homes(t) {
      forall calls: seq<Called>, e: EpochInput, s: nat |
        && s < BATCH && Using(t, calls) && e.Typed() && e.table == t && Admit(AfterCalls(t, calls), e).1 == OK
        && !Imports(e, s) && !NewLease(Import(AfterCalls(t, calls), e).0.rows[s], e.rows[s])
        ensures KeepsTableRow(AfterCalls(t, calls), Prepared(AfterCalls(t, calls), e), t, s)
      {
        HomesIsolate(t, AfterCalls(t, calls), e, s);
      }
    } else {
      var s: nat :| s < BATCH && t[2 * s] / 2 != s;
      WipedNotIsolating(t, s);
    }
  }

  /** The bridge's table is one of them; exchanging two rows' blocks, which is valid too, is not. */
  lemma TablesAtHome()
    ensures ValidTable(IDENTITY_TABLE) && Homes(IDENTITY_TABLE)
    ensures ValidTable([2, 3, 0, 1, 4, 5, 6, 7]) && !Homes([2, 3, 0, 1, 4, 5, 6, 7])
  {
    var t: Table := [2, 3, 0, 1, 4, 5, 6, 7];
    assert t[2 * 0] / 2 != 0;
  }
}
