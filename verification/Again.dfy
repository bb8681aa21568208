/** Reconciling a second time, directly after the first pass was carried out. */
module Again {
  import opened Dns
  import opened Ordering
  import opened Store
  import opened Write
  import opened Carry
  import opened Batch
  import opened History
  import opened Upkeep
  import opened Runs
  import opened Queues
  import opened Reverse
  import opened Generation
  import opened Reconcile

  // ------------------------------------------------- nobody's own is touched

  /** A pass removes only generated records and updates nothing. */
  lemma HandWrittenIsSafe(w: World, policy: Policy, sources: seq<Record>, first: RecordId, q: Queue, mint: RecordId)
    requires WholePass(w, policy, sources, first, q, mint)
    ensures forall d :: d in AllDeletes(q) ==> d.managedBy.Some?
    ensures AllUpdates(q) == []
  {
    GoneStored(w, sources, |sources|);
    forall d | d in AllDeletes(q)
      ensures d.managedBy.Some?
    {
      RemovesIs(q, d);
      assert Removes(q, d);
    }
    NoneUpdated(w.db.rows, q);
  }

  lemma NoneUpdated(rows: Rows, q: Queue)
    requires WellQueued(rows, q) && NoUpdates(q)
    ensures AllUpdates(q) == []
  {
    if AllUpdates(q) != [] {
      UpdateIsOwn(rows, q, AllUpdates(q)[0]);
    }
  }

  // -------------------------------------------------- what the pass removes

  lemma {:induction false} GoneClosed(w: World, sources: seq<Record>, n: nat)
    requires n <= |sources|
    ensures Closed(w.db.rows, Overtaken(w, sources, n))
  {
    if n > 0 {
      GoneClosed(w, sources, n - 1);
      var last := Cascade(w.db.rows, Stale(w, sources[n - 1]));
      assert Below(w.db.rows, Overtaken(w, sources, n)) == Below(w.db.rows, Overtaken(w, sources, n - 1)) + Below(w.db.rows, last);
    }
  }

  lemma PassDeletes(w: World, policy: Policy, sources: seq<Record>, first: RecordId, q: Queue, mint: RecordId)
    requires RowsOk(w.db.rows) && WholePass(w, policy, sources, first, q, mint)
    ensures Ids(AllDeletes(q)) == Overtaken(w, sources, |sources|)
  {
    var gone := Overtaken(w, sources, |sources|);
    GoneStored(w, sources, |sources|);
    forall id
      ensures id in Ids(AllDeletes(q)) <==> id in gone
    {
      IdsOf(AllDeletes(q), id);
      if id in gone {
        assert Removes(q, w.db.rows[id]);
        RemovesIs(q, w.db.rows[id]);
      }
      if d :| d in AllDeletes(q) && d.id == id {
        RemovesIs(q, d);
        assert Removes(q, d);
      }
    }
  }

  /** The removals of a pass are closed, so the journal records all of them. */
  lemma PassIsClosed(w: World, policy: Policy, sources: seq<Record>, first: RecordId, q: Queue, mint: RecordId)
    requires RowsOk(w.db.rows) && WholePass(w, policy, sources, first, q, mint)
    ensures Closed(w.db.rows, Ids(AllDeletes(q)))
  {
    PassDeletes(w, policy, sources, first, q, mint);
    GoneClosed(w, sources, |sources|);
  }

  /** So carrying a pass out keeps every zone's journal true to its rows. */
  lemma PassKeepsLaw(w: World, policy: Policy, sources: seq<Record>, first: RecordId, q: Queue, mint: RecordId, p: Intent)
    requires Lawful(w.db) && WholePass(w, policy, sources, first, q, mint) && p.kind != ZoneCreate
    requires WriteBatch(w.db, EditBatch(p, q)).Ok?
    ensures Lawful(WriteBatch(w.db, EditBatch(p, q)).value)
  {
    PassIsClosed(w, policy, sources, first, q, mint);
    EditKeepsLaw(w.db, p, q);
  }

  // ----------------------------------------------------- the store afterwards

  /** The rows once a pass is carried out. */
  ghost predicate After(rows: Rows, gone: set<RecordId>, q: Queue, now: Rows)
  {
    && (forall id :: id in now && id !in rows - gone ==> Adds(q, now[id]))
    && (forall id :: id in rows - gone ==> id in now && now[id] == rows[id])
    && (forall r {:trigger Adds(q, r)} :: Adds(q, r) ==> r.id in now && now[r.id] == r)
  }

  lemma ExtendedIsAfter(rows: Rows, gone: set<RecordId>, mid: Rows, now: Rows, q: Queue)
    requires q.Proper() && CarriedBy(rows, mid, now, q, gone) && AllUpdates(q) == []
    ensures After(rows, gone, q, now)
  {
    assert forall id :: id in rows - gone ==> !Addressed(AllUpdates(q), id);
    forall id | id in now && id !in rows - gone
      ensures Adds(q, now[id])
    {
      assert id in Ids(AllInserts(q));
      var i :| 0 <= i < |AllInserts(q)| && AllInserts(q)[i].id == id;
      AddsIs(q, AllInserts(q)[i]);
    }
    forall r | Adds(q, r)
      ensures r.id in now && now[r.id] == r
    {
      AddsIs(q, r);
      var i :| 0 <= i < |AllInserts(q)| && AllInserts(q)[i] == r;
    }
  }

  lemma PassCarried(w: World, policy: Policy, sources: seq<Record>, first: RecordId, q: Queue, mint: RecordId)
    requires Integrity(w.db) && WholePass(w, policy, sources, first, q, mint) && WriteQueue(w.db, q).Ok?
    ensures After(w.db.rows, Overtaken(w, sources, |sources|), q, WriteQueue(w.db, q).value.rows)
  {
    PassDeletes(w, policy, sources, first, q, mint);
    PassIsClosed(w, policy, sources, first, q, mint);
    ClosedIffNoMore(w.db.rows, Ids(AllDeletes(q)));
    WriteCarries(w.db, q);
    NoneUpdated(w.db.rows, q);
    var now := WriteQueue(w.db, q).value.rows;
    var mid :| CarriedBy(w.db.rows, mid, now, q, Overtaken(w, sources, |sources|));
    ExtendedIsAfter(w.db.rows, Overtaken(w, sources, |sources|), mid, now, q);
  }

  // ------------------------------------------------------------ the second pass

  /** The same records and the same reverse zones, over the rows as they now are. */
  ghost predicate Follows(w: World, later: World, sources: seq<Record>, first: RecordId, q: Queue)
  {
    && (forall s :: s in sources ==> Place(later, s) == Place(w, s))
    && After(w.db.rows, Overtaken(w, sources, |sources|), q, later.db.rows)
  }

  ghost predicate Passed(w: World, policy: Policy, later: World, sources: seq<Record>, first: RecordId, q: Queue, mint: RecordId)
  {
    && Sources(w.db.rows, sources) && WholePass(w, policy, sources, first, q, mint)
    && RowsOk(w.db.rows) && RowsOk(later.db.rows) && Follows(w, later, sources, first, q)
  }

  /** After a pass, nothing a source generated is out of place. */
  lemma NothingStale(w: World, policy: Policy, later: World, sources: seq<Record>, first: RecordId, q: Queue, mint: RecordId, k: nat)
    requires Passed(w, policy, later, sources, first, q, mint) && k < |sources|
    ensures Stale(later, sources[k]) == {}
  {
    var s := sources[k];
    assert s in sources;
    assert Cascade(w.db.rows, Stale(w, s)) <= Overtaken(w, sources, |sources|) by {
      GoneGrows(w, sources, k + 1, |sources|);
    }
    forall id | id in Below(later.db.rows, {s.id}) && Place(later, s).Some?
      ensures Belongs(later.db.rows[id], Place(later, s).value)
    {
      var r := later.db.rows[id];
      if id in w.db.rows - Overtaken(w, sources, |sources|) {
        assert id in Below(w.db.rows, {s.id});
      } else {
        assert Adds(q, r);
        assert Expected(w, policy, sources, |sources|, q, r);
        var j :| 0 <= j < |sources| && Earns(w, policy, sources, j, r);
        UniqueApart(sources, j, k);
      }
    }
  }

  lemma {:induction false} NothingGone(w: World, sources: seq<Record>, n: nat)
    requires n <= |sources| && forall k :: 0 <= k < n ==> Stale(w, sources[k]) == {}
    ensures Overtaken(w, sources, n) == {}
  {
    if n > 0 {
      NothingGone(w, sources, n - 1);
      CascadeIsLeast(w.db.rows, {}, {});
    }
  }

  lemma NoneStale(w: World, policy: Policy, later: World, sources: seq<Record>, first: RecordId, q: Queue, mint: RecordId)
    requires Passed(w, policy, later, sources, first, q, mint)
    ensures Overtaken(later, sources, |sources|) == {}
  {
    forall k | 0 <= k < |sources|
      ensures Stale(later, sources[k]) == {}
    {
      NothingStale(w, policy, later, sources, first, q, mint, k);
    }
    NothingGone(later, sources, |sources|);
  }

  /** After a pass, a spot is held by a row that stayed or by an entry added. */
  lemma HeldAfter(rows: Rows, gone: set<RecordId>, q: Queue, now: Rows, t: Spot)
    requires After(rows, gone, q, now)
    ensures Holders(now, t) != {} <==> !(Holders(rows, t) <= gone) || Fills(q, t)
  {
    if Holders(now, t) != {} {
      var id :| id in Holders(now, t);
      if id in rows - gone {
        assert id in Holders(rows, t);
      } else {
        assert Adds(q, now[id]) && SitsAt(now[id], t);
      }
    }
    if !(Holders(rows, t) <= gone) {
      var id :| id in Holders(rows, t) && id !in gone;
      assert id in rows - gone;
      assert id in Holders(now, t);
    }
    if Fills(q, t) {
      var r :| Adds(q, r) && SitsAt(r, t);
      assert r.id in Holders(now, t);
    }
  }

  /** A pass comes to nothing exactly when nothing goes and no spot is filled. */
  lemma PassEmptyIff(w: World, policy: Policy, sources: seq<Record>, first: RecordId, q: Queue, mint: RecordId)
    requires RowsOk(w.db.rows) && WholePass(w, policy, sources, first, q, mint)
    ensures q.Empty() <==> Overtaken(w, sources, |sources|) == {} && forall t :: !Filled(w, policy, sources, |sources|, t)
  {
    var gone := Overtaken(w, sources, |sources|);
    GoneStored(w, sources, |sources|);
    forall id | id in gone
      ensures Removes(q, w.db.rows[id])
    {
    }
    if q.Empty() {
      assert forall d :: !Removes(q, d);
      assert forall id :: id !in gone;
      forall t
        ensures !Filled(w, policy, sources, |sources|, t)
      {
        assert !Fills(q, t);
      }
    }
    if gone == {} && forall t :: !Filled(w, policy, sources, |sources|, t) {
      forall z | z in q.byZone
        ensures q.byZone[z].Empty()
      {
        NothingQueued(w, policy, sources, first, q, mint, z);
      }
    }
  }

  lemma NothingQueued(w: World, policy: Policy, sources: seq<Record>, first: RecordId, q: Queue, mint: RecordId, z: ZoneId)
    requires WholePass(w, policy, sources, first, q, mint) && z in q.byZone
    requires Overtaken(w, sources, |sources|) == {} && forall t :: !Filled(w, policy, sources, |sources|, t)
    ensures q.byZone[z].Empty()
  {
    var c := q.byZone[z];
    assert q.For(z).updates == [] && q.For(z).soa.None?;
    assert forall t :: !Fills(q, t);
    if c.deletes != [] {
      assert c.deletes[0] in c.deletes;
      assert Removes(q, c.deletes[0]);
    }
    if c.inserts != [] {
      assert c.inserts[0] in c.inserts;
      assert Adds(q, c.inserts[0]);
    }
  }

  /** Every spot a record belongs at is held by a row that stays, or was found open
      by one of the records that belong there. */
  predicate Settles(w: World, policy: Policy, sources: seq<Record>)
  {
    forall k :: 0 <= k < |sources| ==> SettlesAt(w, policy, sources, SpotOf(w, policy, sources[k]))
  }

  predicate SettlesAt(w: World, policy: Policy, sources: seq<Record>, spot: Option<Spot>)
  {
    spot.Some? ==> !(Holders(w.db.rows, spot.value) <= Overtaken(w, sources, |sources|)) || Filled(w, policy, sources, |sources|, spot.value)
  }

  lemma FilledOnFreshRows(w: World, policy: Policy, sources: seq<Record>, t: Spot)
    requires Overtaken(w, sources, |sources|) == {}
    ensures Filled(w, policy, sources, |sources|, t) <==> Holders(w.db.rows, t) == {} && exists k :: 0 <= k < |sources| && SpotOf(w, policy, sources[k]) == Some(t)
  {
    forall j | 0 <= j <= |sources|
      ensures Overtaken(w, sources, j) == {}
    {
      GoneGrows(w, sources, j, |sources|);
    }
    if k :| 0 <= k < |sources| && SpotOf(w, policy, sources[k]) == Some(t) && Holders(w.db.rows, t) == {} {
      assert Opens(w, policy, sources, k, t);
    }
  }

  ghost predicate Unsettled(w: World, policy: Policy, later: World, sources: seq<Record>, t: Spot)
  {
    && (exists k :: 0 <= k < |sources| && SpotOf(later, policy, sources[k]) == Some(t))
    && Holders(w.db.rows, t) <= Overtaken(w, sources, |sources|) && !Filled(w, policy, sources, |sources|, t)
  }

  lemma FillsIff(w: World, policy: Policy, sources: seq<Record>, q: Queue, t: Spot, k: nat)
    requires FillsOpened(w, policy, sources, |sources|, q) && k < |sources| && SpotOf(w, policy, sources[k]) == Some(t)
    ensures Fills(q, t) <==> Filled(w, policy, sources, |sources|, t)
  {
    assert OfKind(policy, t);
  }

  lemma FilledLaterIff(w: World, policy: Policy, later: World, sources: seq<Record>, q: Queue, t: Spot)
    requires FillsOpened(w, policy, sources, |sources|, q) && Overtaken(later, sources, |sources|) == {}
    requires After(w.db.rows, Overtaken(w, sources, |sources|), q, later.db.rows)
    requires forall k :: 0 <= k < |sources| ==> SpotOf(later, policy, sources[k]) == SpotOf(w, policy, sources[k])
    ensures Filled(later, policy, sources, |sources|, t) <==> Unsettled(w, policy, later, sources, t)
  {
    FilledOnFreshRows(later, policy, sources, t);
    if k :| 0 <= k < |sources| && SpotOf(later, policy, sources[k]) == Some(t) {
      HeldAfter(w.db.rows, Overtaken(w, sources, |sources|), q, later.db.rows, t);
      FillsIff(w, policy, sources, q, t, k);
    }
  }

  lemma FollowingPassEmptyIff(w: World, policy: Policy, sources: seq<Record>, first: RecordId, q: Queue, mint: RecordId,
                              later: World, again: RecordId, second: Queue, last: RecordId)
    requires Passed(w, policy, later, sources, first, q, mint) && WholePass(later, policy, sources, again, second, last)
    ensures second.Empty() <==> Settles(w, policy, sources)
  {
    var n := |sources|;
    NoneStale(w, policy, later, sources, first, q, mint);
    PassEmptyIff(later, policy, sources, again, second, last);
    forall k | 0 <= k < n
      ensures SpotOf(later, policy, sources[k]) == SpotOf(w, policy, sources[k])
    {
      assert sources[k] in sources;
    }
    forall t
      ensures Filled(later, policy, sources, n, t) <==> Unsettled(w, policy, later, sources, t)
    {
      FilledLaterIff(w, policy, later, sources, q, t);
    }
    SettlesIff(w, policy, later, sources);
  }

  /** Reconciling again directly after a pass was written does nothing if and only if
      every spot settled in the first. */
  lemma SecondPassEmptyIff(w: World, policy: Policy, sources: seq<Record>, first: RecordId, q: Queue, mint: RecordId, p: Intent,
                           later: World, again: RecordId, second: Queue, last: RecordId)
    requires Integrity(w.db) && Sources(w.db.rows, sources) && WholePass(w, policy, sources, first, q, mint)
    requires WriteBatch(w.db, EditBatch(p, q)) == Ok(later.db) && forall s :: s in sources ==> Place(later, s) == Place(w, s)
    requires WholePass(later, policy, sources, again, second, last)
    ensures second.Empty() <==> Settles(w, policy, sources)
  {
    var carried := WriteQueue(w.db, q).value;
    WriteCarries(w.db, q);
    RecordKeepsIntegrity(carried, later.db, EditBatch(p, q), EditBatch(p, q).commits);
    PassCarried(w, policy, sources, first, q, mint);
    FollowingPassEmptyIff(w, policy, sources, first, q, mint, later, again, second, last);
  }

  lemma SettlesIff(w: World, policy: Policy, later: World, sources: seq<Record>)
    requires forall k :: 0 <= k < |sources| ==> SpotOf(later, policy, sources[k]) == SpotOf(w, policy, sources[k])
    requires forall t :: Filled(later, policy, sources, |sources|, t) <==> Unsettled(w, policy, later, sources, t)
    ensures (forall t :: !Filled(later, policy, sources, |sources|, t)) <==> Settles(w, policy, sources)
  {
    if forall t :: !Filled(later, policy, sources, |sources|, t) {
      forall k | 0 <= k < |sources|
        ensures SettlesAt(w, policy, sources, SpotOf(w, policy, sources[k]))
      {
        if SpotOf(w, policy, sources[k]).Some? {
          assert !Filled(later, policy, sources, |sources|, SpotOf(w, policy, sources[k]).value);
        }
      }
    }
    if Settles(w, policy, sources) {
      forall t
        ensures !Filled(later, policy, sources, |sources|, t)
      {
        if k :| 0 <= k < |sources| && SpotOf(later, policy, sources[k]) == Some(t) {
          assert SettlesAt(w, policy, sources, SpotOf(w, policy, sources[k]));
        }
      }
    }
  }
}
