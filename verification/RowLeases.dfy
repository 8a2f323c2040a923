/** Rows and generations of the requests the scheduler has seen decoding together: the allocator and its safety. */
module RowLeases {
  import opened Layout
  import opened Contract

  const GENERATION_LIMIT := 0x8000_0000

  datatype Leases = Leases(rows: map<ReqId, nat>, generations: map<ReqId, int>, owned: set<ReqId>, next: int)

  const NO_LEASES := Leases(map[], map[], {}, 1)

  datatype Assignment = Assigned(leases: Leases) | RowsExhausted | GenerationsExhausted

  /** The leases that survive when `requested` runs next. */
  function Kept(l: Leases, requested: set<ReqId>): Leases {
    Leases(map id | id in l.rows && id in requested :: l.rows[id],
           map id | id in l.generations && (id in requested || id !in l.rows) :: l.generations[id],
           (set id | id in l.owned && (id in requested || id !in l.rows)),
           l.next)
  }

  predicate Used(rows: map<ReqId, nat>, row: nat) { exists id :: id in rows && rows[id] == row }

  /** The free rows from `row` on, in order. */
  function FreeFrom(rows: map<ReqId, nat>, row: nat): seq<nat>
    requires row <= BATCH
    decreases BATCH - row
  {
    if row == BATCH then []
    else if Used(rows, row) then FreeFrom(rows, row + 1)
    else [row] + FreeFrom(rows, row + 1)
  }

  /** They are exactly the unused rows, the least first. */
  lemma {:induction false} FreeAre(rows: map<ReqId, nat>, row: nat)
    requires row <= BATCH
    ensures forall r :: r in FreeFrom(rows, row) <==> row <= r < BATCH && !Used(rows, r)
    ensures FreeFrom(rows, row) != [] ==> forall r :: r in FreeFrom(rows, row) ==> FreeFrom(rows, row)[0] <= r
    decreases BATCH - row
  {
    if row < BATCH { FreeAre(rows, row + 1); }
  }

  function FreeRows(rows: map<ReqId, nat>): seq<nat> { FreeFrom(rows, 0) }

  function Lease(l: Leases, id: ReqId, row: nat): Leases {
    l.(rows := l.rows[id := row], generations := l.generations[id := l.next], next := l.next + 1)
  }

  /** Lease the first free row and the next generation to a request that has none. */
  function GiveOne(l: Leases, id: ReqId): Assignment {
    if id in l.rows then Assigned(l)
    else if FreeRows(l.rows) == [] then RowsExhausted
    else if l.next >= GENERATION_LIMIT then GenerationsExhausted
    else Assigned(Lease(l, id, FreeRows(l.rows)[0]))
  }

  /** The same for a list of requests, in order. */
  function Give(l: Leases, ids: seq<ReqId>): Assignment {
    if ids == [] then Assigned(l)
    else
      var before := Give(l, ids[..|ids| - 1]);
      if before.Assigned? then GiveOne(before.leases, ids[|ids| - 1]) else before
  }

  function Elements(ids: seq<ReqId>): set<ReqId> { set id | id in ids }

  function Assign(l: Leases, ids: seq<ReqId>): Assignment { Give(Kept(l, Elements(ids)), ids) }

  // ----- what every assignment keeps

  ghost predicate LeaseOk(l: Leases, id: ReqId) {
    id in l.rows && id in l.generations && l.rows[id] < BATCH && 0 < l.generations[id] < l.next
  }

  ghost predicate Apart(l: Leases, a: ReqId, b: ReqId)
    requires LeaseOk(l, a) && LeaseOk(l, b)
  {
    l.rows[a] != l.rows[b] && l.generations[a] != l.generations[b]
  }

  /** Rows are different and in range, generations are different, positive and below the counter, and whoever the
      device owns has a lease. */
  ghost predicate Safe(l: Leases) {
    && l.rows.Keys == l.generations.Keys
    && l.owned <= l.rows.Keys
    && 1 <= l.next <= GENERATION_LIMIT
    && (forall id | id in l.rows :: LeaseOk(l, id))
    && (forall a, b | a in l.rows && b in l.rows && a != b :: Apart(l, a, b))
  }

  lemma KeptSafe(l: Leases, requested: set<ReqId>)
    requires Safe(l)
    ensures Safe(Kept(l, requested)) && Kept(l, requested).rows.Keys == l.rows.Keys * requested
    ensures Kept(l, requested).owned == l.owned * requested
  {
    var k := Kept(l, requested);
    forall id | id in k.rows
      ensures LeaseOk(k, id)
    {
      assert LeaseOk(l, id);
    }
    forall a, b | a in k.rows && b in k.rows && a != b
      ensures Apart(k, a, b)
    {
      assert Apart(l, a, b);
    }
  }

  /** Giving out leases changes no lease that exists. */
  ghost predicate Extends(l: Leases, m: Leases) {
    && m.owned == l.owned && l.next <= m.next
    && l.rows.Keys <= m.rows.Keys && l.generations.Keys <= m.generations.Keys
    && (forall id | id in l.rows :: m.rows[id] == l.rows[id])
    && (forall id | id in l.generations :: m.generations[id] == l.generations[id])
    && (forall id | id in m.generations && id !in l.generations :: l.next <= m.generations[id])
  }

  lemma LeaseSafe(l: Leases, id: ReqId, row: nat)
    requires Safe(l) && id !in l.rows && row < BATCH && !Used(l.rows, row) && l.next < GENERATION_LIMIT
    ensures Safe(Lease(l, id, row)) && Extends(l, Lease(l, id, row))
    ensures Lease(l, id, row).rows.Keys == l.rows.Keys + {id}
  {
    var m := Lease(l, id, row);
    forall a | a in m.rows
      ensures LeaseOk(m, a)
    {
      if a != id { assert LeaseOk(l, a); }
    }
    forall a, b | a in m.rows && b in m.rows && a != b
      ensures Apart(m, a, b)
    {
      if a != id && b != id { assert Apart(l, a, b); }
      if a != id { assert LeaseOk(l, a); }
      if b != id { assert LeaseOk(l, b); }
    }
  }

  lemma GiveOneSafe(l: Leases, id: ReqId)
    requires Safe(l)
    ensures var g := GiveOne(l, id);
            g.Assigned? ==> Safe(g.leases) && Extends(l, g.leases) && g.leases.rows.Keys == l.rows.Keys + {id}
  {
    if id !in l.rows && FreeRows(l.rows) != [] && l.next < GENERATION_LIMIT {
      var free := FreeRows(l.rows);
      FreeAre(l.rows, 0);
      assert free[0] in free;
      LeaseSafe(l, id, free[0]);
    }
  }

  lemma ExtendsFurther(a: Leases, b: Leases, c: Leases)
    requires Extends(a, b) && Extends(b, c)
    ensures Extends(a, c)
  {
  }

  lemma {:induction false} GiveSafe(l: Leases, ids: seq<ReqId>)
    requires Safe(l)
    ensures var g := Give(l, ids);
            g.Assigned? ==>
              && Safe(g.leases) && Extends(l, g.leases)
              && g.leases.rows.Keys == l.rows.Keys + Elements(ids)
  {
    if ids != [] {
      var n := |ids| - 1;
      GiveSafe(l, ids[..n]);
      assert Elements(ids) == Elements(ids[..n]) + {ids[n]};
      var before := Give(l, ids[..n]);
      if before.Assigned? && GiveOne(before.leases, ids[n]).Assigned? {
        GiveOneSafe(before.leases, ids[n]);
        ExtendsFurther(l, before.leases, GiveOne(before.leases, ids[n]).leases);
      }
    }
  }

  /** Every assignment keeps the leases safe; exactly the requested requests have one afterwards, and a request
      that had one keeps it. */
  lemma AssignSafe(l: Leases, ids: seq<ReqId>)
    requires Safe(l)
    ensures Assign(l, ids).Assigned? ==>
              var m := Assign(l, ids).leases;
              && Safe(m) && m.rows.Keys == Elements(ids) && m.owned == l.owned * Elements(ids) && l.next <= m.next
              && (forall id | id in l.rows && id in ids :: m.rows[id] == l.rows[id] && m.generations[id] == l.generations[id])
              && (forall id | id in ids && id !in l.rows :: l.next <= m.generations[id])
  {
    KeptSafe(l, Elements(ids));
    GiveSafe(Kept(l, Elements(ids)), ids);
  }

  predicate Distinct(ids: seq<ReqId>) { forall i, j :: 0 <= i < j < |ids| ==> ids[i] != ids[j] }

  lemma {:induction false} ElementsCount(ids: seq<ReqId>)
    ensures |Elements(ids)| <= |ids|
  {
    if ids != [] {
      var n := |ids| - 1;
      ElementsCount(ids[..n]);
      assert Elements(ids) == Elements(ids[..n]) + {ids[n]};
    }
  }

  lemma SubsetCount<T>(a: set<T>, b: set<T>)
    requires a <= b
    ensures |a| <= |b|
  {
    assert b == a + (b - a);
  }

  /** Four leased requests and one more are five. */
  lemma FreeRowLeft(l: Leases, id: ReqId, ids: seq<ReqId>)
    requires Safe(l) && l.rows.Keys <= Elements(ids) && |ids| <= BATCH && id in ids && id !in l.rows
    ensures FreeRows(l.rows) != []
  {
    FreeAre(l.rows, 0);
    if FreeRows(l.rows) == [] {
      assert Used(l.rows, 0) && Used(l.rows, 1) && Used(l.rows, 2) && Used(l.rows, 3);
      var a :| a in l.rows && l.rows[a] == 0;
      var b :| b in l.rows && l.rows[b] == 1;
      var c :| c in l.rows && l.rows[c] == 2;
      var d :| d in l.rows && l.rows[d] == 3;
      Five(a, b, c, d, id, ids);
    }
  }

  lemma Five(a: ReqId, b: ReqId, c: ReqId, d: ReqId, e: ReqId, ids: seq<ReqId>)
    requires a != b && a != c && a != d && a != e && b != c && b != d && b != e && c != d && c != e && d != e
    requires a in ids && b in ids && c in ids && d in ids && e in ids
    ensures |ids| >= 5
  {
    SubsetCount({a, b, c, d, e}, Elements(ids));
    ElementsCount(ids);
  }

  lemma {:induction false} GiveHasRows(l: Leases, ids: seq<ReqId>, all: seq<ReqId>)
    requires Safe(l) && l.rows.Keys <= Elements(all) && ids <= all && |all| <= BATCH
    ensures Give(l, ids) != RowsExhausted
  {
    if ids != [] {
      var n := |ids| - 1;
      GiveHasRows(l, ids[..n], all);
      GiveSafe(l, ids[..n]);
      var before := Give(l, ids[..n]);
      if before.Assigned? && ids[n] !in before.leases.rows {
        assert ids[n] == all[n];
        assert forall id :: id in ids[..n] ==> id in all;
        FreeRowLeft(before.leases, ids[n], all);
      }
    }
  }

  /** For a batch that fits the graph the row allocator is never exhausted. */
  lemma RowsSuffice(l: Leases, ids: seq<ReqId>)
    requires Safe(l) && |ids| <= BATCH
    ensures Assign(l, ids) != RowsExhausted
  {
    KeptSafe(l, Elements(ids));
    GiveHasRows(Kept(l, Elements(ids)), ids, ids);
  }

  /** The requests that have no lease yet. */
  function Unleased(l: Leases, ids: seq<ReqId>): set<ReqId> { Elements(ids) - l.rows.Keys }

  lemma OneMore<T>(s: set<T>, x: T)
    requires x !in s
    ensures |s + {x}| == |s| + 1
  {
  }

  lemma UnleasedSame(l: Leases, ids: seq<ReqId>, id: ReqId)
    requires id in l.rows || id in ids
    ensures Unleased(l, ids + [id]) == Unleased(l, ids)
  {
    forall x
      ensures x in Unleased(l, ids + [id]) <==> x in Unleased(l, ids)
    {
      assert x in ids + [id] <==> x in ids || x == id;
    }
  }

  lemma UnleasedAdded(l: Leases, ids: seq<ReqId>, id: ReqId)
    requires id !in l.rows && id !in ids
    ensures Unleased(l, ids + [id]) == Unleased(l, ids) + {id} && id !in Unleased(l, ids)
  {
    forall x
      ensures x in Unleased(l, ids + [id]) <==> x in Unleased(l, ids) + {id}
    {
      assert x in ids + [id] <==> x in ids || x == id;
    }
  }

  lemma UnleasedNext(l: Leases, ids: seq<ReqId>, id: ReqId)
    ensures |Unleased(l, ids + [id])| == |Unleased(l, ids)| + if id in l.rows || id in ids then 0 else 1
  {
    if id in l.rows || id in ids {
      UnleasedSame(l, ids, id);
    } else {
      UnleasedAdded(l, ids, id);
      OneMore(Unleased(l, ids), id);
    }
  }

  lemma GiveOneUses(l: Leases, id: ReqId)
    requires 1 <= l.next <= GENERATION_LIMIT
    ensures var g, used := GiveOne(l, id), if id in l.rows then 0 else 1;
            && (g.Assigned? ==> g.leases.next == l.next + used)
            && (g.GenerationsExhausted? ==> l.next + used > GENERATION_LIMIT)
  {
  }

  /** Every new request takes one generation; they run out only if the counter would pass its limit. */
  lemma {:induction false} GenerationsUsed(l: Leases, ids: seq<ReqId>)
    requires Safe(l)
    ensures Give(l, ids).Assigned? ==> Give(l, ids).leases.next == l.next + |Unleased(l, ids)|
    ensures Give(l, ids).GenerationsExhausted? ==> l.next + |Unleased(l, ids)| > GENERATION_LIMIT
  {
    if ids != [] {
      var n := |ids| - 1;
      var before := Give(l, ids[..n]);
      GenerationsUsed(l, ids[..n]);
      GiveSafe(l, ids[..n]);
      assert ids[..n] + [ids[n]] == ids;
      UnleasedNext(l, ids[..n], ids[n]);
      if before.Assigned? { GiveOneUses(before.leases, ids[n]); }
    }
  }

  lemma SameUnleased(l: Leases, ids: seq<ReqId>)
    requires Safe(l)
    ensures Unleased(Kept(l, Elements(ids)), ids) == Unleased(l, ids)
  {
    KeptSafe(l, Elements(ids));
  }

  /** For a batch that fits the graph, generations run out exactly when the new requests would take the counter
      past its limit. */
  lemma GenerationsSuffice(l: Leases, ids: seq<ReqId>)
    requires Safe(l) && |ids| <= BATCH
    ensures Assign(l, ids) == GenerationsExhausted <==> l.next + |Unleased(l, ids)| > GENERATION_LIMIT
  {
    KeptSafe(l, Elements(ids));
    var k := Kept(l, Elements(ids));
    RowsSuffice(l, ids);
    GenerationsUsed(k, ids);
    GiveSafe(k, ids);
    SameUnleased(l, ids);
  }

  lemma UsedAfter(rows: map<ReqId, nat>, id: ReqId, taken: nat, r: nat)
    requires id !in rows
    ensures Used(rows[id := taken], r) <==> r == taken || Used(rows, r)
  {
    var after := rows[id := taken];
    assert after[id] == taken;
    if a :| a in rows && rows[a] == r { assert after[a] == r; }
    if Used(after, r) && r != taken {
      var a :| a in after && after[a] == r;
      assert rows[a] == r;
    }
  }

  /** Taking the first free row leaves the others, in order. */
  lemma {:induction false} FreeRowTaken(rows: map<ReqId, nat>, id: ReqId, row: nat)
    requires row <= BATCH && id !in rows && FreeFrom(rows, row) != []
    ensures var free := FreeFrom(rows, row);
            FreeFrom(rows[id := free[0]], row) == free[1..]
    decreases BATCH - row
  {
    var free := FreeFrom(rows, row);
    FreeAre(rows, row);
    assert free[0] in free;
    forall r: nat | row <= r < BATCH
      ensures Used(rows[id := free[0]], r) <==> r == free[0] || Used(rows, r)
    {
      UsedAfter(rows, id, free[0], r);
    }
    if Used(rows, row) {
      FreeRowTaken(rows, id, row + 1);
    } else {
      SameFree(rows, rows[id := free[0]], row + 1);
    }
  }

  lemma {:induction false} SameFree(a: map<ReqId, nat>, b: map<ReqId, nat>, row: nat)
    requires row <= BATCH && forall r: nat | row <= r < BATCH :: Used(a, r) <==> Used(b, r)
    ensures FreeFrom(a, row) == FreeFrom(b, row)
    decreases BATCH - row
  {
    if row < BATCH { SameFree(a, b, row + 1); }
  }
}
