/** What carrying a queue out does to the rows of every zone. */
module Carry {
  import opened Dns
  import opened Changes
  import opened Ordering
  import opened Store
  import opened View
  import opened Write

  // ---------------------------------------------------------- well queued

  /** An update keeps the row's identity and zone, and never gives it a source. */
  ghost predicate InPlace(z: ZoneId, u: Update)
  {
    && u.after.id == u.before.id && u.after.zone == z
    && (u.after.managedBy == u.before.managedBy || u.after.managedBy == None)
  }

  /** Each row a zone's changes take out or update is a row of that zone as it
      stands, named once, and what they put in belongs to the zone. */
  ghost predicate WellQueuedIn(rows: Rows, z: ZoneId, c: Changes)
  {
    && RowsOf(rows, z, Leaving(c))
    && (forall u :: u in c.updates ==> InPlace(z, u))
    && (forall r :: r in c.inserts ==> r.zone == z)
  }

  ghost predicate WellQueued(rows: Rows, q: Queue)
  {
    q.Proper() && forall z {:trigger WellQueuedIn(rows, z, q.byZone[z])} :: z in q.byZone ==> WellQueuedIn(rows, z, q.byZone[z])
  }

  lemma Queued(rows: Rows, q: Queue, z: ZoneId)
    requires WellQueued(rows, q)
    ensures WellQueuedIn(rows, z, q.For(z))
  {
  }

  ghost function AllDeletes(q: Queue): seq<Record>
  {
    Deletes(q, |q.order|)
  }

  ghost function AllUpdates(q: Queue): seq<Update>
  {
    Updates(q, |q.order|)
  }

  ghost function AllInserts(q: Queue): seq<Record>
  {
    Inserts(q, |q.order|)
  }

  // ------------------------------------------- a zone's own, among them all

  lemma LeavingIs(c: Changes, r: Record)
    ensures r in Leaving(c) <==> r in c.deletes || exists u :: u in c.updates && u.before == r
  {
    if r in c.deletes {
      var i :| 0 <= i < |c.deletes| && c.deletes[i] == r;
      assert Leaving(c)[i] == r;
    }
    if u :| u in c.updates && u.before == r {
      var i :| 0 <= i < |c.updates| && c.updates[i] == u;
      assert Befores(c.updates)[i] == r;
    }
    if r in Leaving(c) && r !in c.deletes {
      var i :| 0 <= i < |Befores(c.updates)| && Befores(c.updates)[i] == r;
      assert c.updates[i] in c.updates;
    }
  }

  lemma ArrivingIs(c: Changes, r: Record)
    ensures r in Arriving(c) <==> r in c.inserts || exists u :: u in c.updates && u.after == r
  {
    if r in c.inserts {
      var i :| 0 <= i < |c.inserts| && c.inserts[i] == r;
      assert Arriving(c)[|Afters(c.updates)| + i] == r;
    }
    if u :| u in c.updates && u.after == r {
      var i :| 0 <= i < |c.updates| && c.updates[i] == u;
      assert Afters(c.updates)[i] == r;
    }
    if r in Arriving(c) && r !in c.inserts {
      var i :| 0 <= i < |Afters(c.updates)| && Afters(c.updates)[i] == r;
      assert c.updates[i] in c.updates;
    }
  }

  lemma LeavingHeld(rows: Rows, z: ZoneId, c: Changes, r: Record)
    requires RowsOf(rows, z, Leaving(c)) && r in Leaving(c)
    ensures r.id in rows && rows[r.id] == r && r.zone == z
  {
    var i :| 0 <= i < |Leaving(c)| && Leaving(c)[i] == r;
  }

  /** A queued removal is the removal of its own zone's changes. */
  lemma DeleteIsOwn(rows: Rows, q: Queue, r: Record)
    requires WellQueued(rows, q)
    ensures r in AllDeletes(q) <==> r in q.For(r.zone).deletes
    ensures r in AllDeletes(q) ==> r.id in rows && rows[r.id] == r
  {
    InDeletes(q, |q.order|, r);
    if k :| 0 <= k < |q.order| && r in q.For(q.order[k]).deletes {
      Queued(rows, q, q.order[k]);
      LeavingIs(q.For(q.order[k]), r);
      LeavingHeld(rows, q.order[k], q.For(q.order[k]), r);
    }
    if r in q.For(r.zone).deletes {
      assert r.zone in q.order;
      var k :| 0 <= k < |q.order| && q.order[k] == r.zone;
      assert r in q.For(q.order[k]).deletes;
    }
  }

  lemma UpdateIsOwn(rows: Rows, q: Queue, u: Update)
    requires WellQueued(rows, q)
    ensures u in AllUpdates(q) <==> u in q.For(u.after.zone).updates
    ensures u in AllUpdates(q) ==> u.before.id in rows && rows[u.before.id] == u.before && InPlace(u.before.zone, u)
  {
    InUpdates(q, |q.order|, u);
    if k :| 0 <= k < |q.order| && u in q.For(q.order[k]).updates {
      Queued(rows, q, q.order[k]);
      LeavingIs(q.For(q.order[k]), u.before);
      LeavingHeld(rows, q.order[k], q.For(q.order[k]), u.before);
    }
    if u in q.For(u.after.zone).updates {
      assert u.after.zone in q.order;
      var k :| 0 <= k < |q.order| && q.order[k] == u.after.zone;
      assert u in q.For(q.order[k]).updates;
    }
  }

  lemma InsertIsOwn(rows: Rows, q: Queue, r: Record)
    requires WellQueued(rows, q)
    ensures r in AllInserts(q) <==> r in q.For(r.zone).inserts
  {
    InInserts(q, |q.order|, r);
    if k :| 0 <= k < |q.order| && r in q.For(q.order[k]).inserts {
      Queued(rows, q, q.order[k]);
    }
    if r in q.For(r.zone).inserts {
      assert r.zone in q.order;
      var k :| 0 <= k < |q.order| && q.order[k] == r.zone;
      assert r in q.For(q.order[k]).inserts;
    }
  }

  // ------------------------------------------------------ updates, in turn

  ghost predicate Addressed(us: seq<Update>, id: RecordId)
  {
    exists u :: u in us && u.after.id == id
  }

  ghost predicate UpdatedTo(us: seq<Update>, id: RecordId, r: Record)
  {
    exists u :: u in us && u.after.id == id && u.after == r
  }

  ghost predicate Overlaid(was: Rows, now: Rows, us: seq<Update>)
  {
    && now.Keys == was.Keys
    && forall id :: id in was ==> if Addressed(us, id) then UpdatedTo(us, id, now[id]) else now[id] == was[id]
  }

  lemma OverlaidCons(was: Rows, mid: Rows, now: Rows, us: seq<Update>)
    requires us != [] && us[0].after.id in was && mid == was[us[0].after.id := us[0].after]
    requires Overlaid(mid, now, us[1..])
    ensures Overlaid(was, now, us)
  {
    forall id | id in was
      ensures if Addressed(us, id) then UpdatedTo(us, id, now[id]) else now[id] == was[id]
    {
      assert forall u :: u in us[1..] ==> u in us;
      assert us[0] in us;
      if Addressed(us, id) && !Addressed(us[1..], id) {
        var u :| u in us && u.after.id == id;
        assert us == [us[0]] + us[1..];
        assert u == us[0];
        assert now[id] == mid[id];
      }
    }
  }

  lemma {:induction false} UpdatesOverlay(db: Db, us: seq<Update>)
    requires Integrity(db) && UpdateAll(db, us).Ok?
    ensures var now := UpdateAll(db, us).value;
            Integrity(now) && now.zones == db.zones && now.commits == db.commits && Overlaid(db.rows, now.rows, us)
    ensures forall u :: u in us ==> u.after.id in db.rows
    decreases |us|
  {
    if us != [] {
      assert us == [us[0]] + us[1..];
      PutKeepsIntegrity(db, us[0].after);
      var next := UpdateRecord(db, us[0].after).value;
      UpdatesOverlay(next, us[1..]);
      OverlaidCons(db.rows, next.rows, UpdateAll(db, us).value.rows, us);
    }
  }

  // ------------------------------------------------------ inserts, in turn

  ghost predicate Extended(was: Rows, now: Rows, rs: seq<Record>)
  {
    && UniqueIds(rs) && Ids(rs) !! was.Keys
    && now.Keys == was.Keys + Ids(rs)
    && (forall id :: id in was ==> now[id] == was[id])
    && Present(now, rs)
  }

  lemma ExtendedCons(was: Rows, mid: Rows, now: Rows, rs: seq<Record>)
    requires rs != [] && rs[0].id !in was && mid == was[rs[0].id := rs[0]]
    requires Extended(mid, now, rs[1..])
    ensures Extended(was, now, rs)
  {
    IdsCons(rs);
    forall i | 0 <= i < |rs|
      ensures rs[i].id in now && now[rs[i].id] == rs[i]
    {
      if i > 0 {
        assert rs[1..][i - 1] == rs[i];
      } else {
        assert rs[0].id in mid;
      }
    }
    forall i, j | 0 <= i < j < |rs|
      ensures rs[i].id != rs[j].id
    {
      assert rs[1..][j - 1] == rs[j];
      if i > 0 {
        assert rs[1..][i - 1] == rs[i];
      } else {
        assert rs[j].id in Ids(rs[1..]);
      }
    }
  }

  lemma {:induction false} InsertsExtend(db: Db, rs: seq<Record>)
    requires Integrity(db) && InsertAll(db, rs).Ok?
    ensures var now := InsertAll(db, rs).value;
            Integrity(now) && now.zones == db.zones && now.commits == db.commits && Extended(db.rows, now.rows, rs)
    decreases |rs|
  {
    if rs == [] {
      assert Ids(rs) == {};
    } else {
      PutKeepsIntegrity(db, rs[0]);
      var next := InsertRecord(db, rs[0]).value;
      InsertsExtend(next, rs[1..]);
      ExtendedCons(db.rows, next.rows, InsertAll(db, rs).value.rows, rs);
    }
  }

  lemma ExtendedReordered(was: Rows, now: Rows, a: seq<Record>, b: seq<Record>)
    requires Extended(was, now, a) && multiset(a) == multiset(b)
    ensures Extended(was, now, b)
  {
    SameIds(a, b);
    UniqueOnceEach(a, b);
    forall i | 0 <= i < |b|
      ensures b[i].id in now && now[b[i].id] == b[i]
    {
      assert b[i] in multiset(b);
      var j :| 0 <= j < |a| && a[j] == b[i];
    }
  }

  // ----------------------------------------------------- provenance links

  /** Fewer links cannot close a cycle. */
  lemma FewerLinks(was: Rows, now: Rows)
    requires Acyclic(was)
    requires forall id :: id in now && now[id].managedBy.Some? ==> id in was && was[id].managedBy == now[id].managedBy
    ensures Acyclic(now)
  {
    var rank :| Descends(was, rank);
    assert Descends(now, rank);
  }

  /** Nor can a new row that nothing hangs off yet. */
  lemma InsertKeepsAcyclic(db: Db, r: Record)
    requires Integrity(db) && Acyclic(db.rows) && InsertRecord(db, r).Ok?
    ensures Acyclic(InsertRecord(db, r).value.rows)
  {
    var rank :| Descends(db.rows, rank);
    var above := if r.managedBy.Some? then rank(r.managedBy.value) + 1 else 0;
    var extended := (id: RecordId) => if id == r.id then above else rank(id);
    assert Descends(InsertRecord(db, r).value.rows, extended);
  }

  lemma {:induction false} InsertsKeepAcyclic(db: Db, rs: seq<Record>)
    requires Integrity(db) && Acyclic(db.rows) && InsertAll(db, rs).Ok?
    ensures Acyclic(InsertAll(db, rs).value.rows)
    decreases |rs|
  {
    if rs != [] {
      InsertKeepsAcyclic(db, rs[0]);
      PutKeepsIntegrity(db, rs[0]);
      InsertsKeepAcyclic(InsertRecord(db, rs[0]).value, rs[1..]);
    }
  }

  lemma OverlaidLinks(was: Rows, less: Rows, mid: Rows, q: Queue)
    requires WellQueued(was, q) && Overlaid(less, mid, AllUpdates(q))
    requires forall id :: id in less ==> id in was && less[id] == was[id]
    ensures forall id :: id in mid && mid[id].managedBy.Some? ==> id in was && was[id].managedBy == mid[id].managedBy
  {
    forall id: RecordId | id in mid && mid[id].managedBy.Some?
      ensures id in was && was[id].managedBy == mid[id].managedBy
    {
      if Addressed(AllUpdates(q), id) {
        var u :| u in AllUpdates(q) && u.after.id == id && u.after == mid[id];
        UpdateIsOwn(was, q, u);
      }
    }
  }

  /** Carrying a queue out keeps provenance a forest. */
  lemma WriteKeepsAcyclic(db: Db, q: Queue)
    requires Integrity(db) && Acyclic(db.rows) && WellQueued(db.rows, q) && WriteQueue(db, q).Ok?
    ensures Acyclic(WriteQueue(db, q).value.rows)
  {
    var dels := Ordered(AllDeletes(q), true);
    var less := DeleteAll(db, dels).value;
    DeletesCascade(db, dels);
    DeleteKeepsIntegrity(db, Cascade(db.rows, Ids(dels)));
    UpdatesOverlay(less, AllUpdates(q));
    var same := UpdateAll(less, AllUpdates(q)).value;
    OverlaidLinks(db.rows, less.rows, same.rows, q);
    FewerLinks(db.rows, same.rows);
    InsertsKeepAcyclic(same, Ordered(AllInserts(q), false));
  }

  // ------------------------------------------------------------- all three

  /** The rows after a queue: without what was deleted, with what was updated
      and with what was added. */
  ghost predicate Carried(was: Rows, now: Rows, q: Queue, gone: set<RecordId>)
  {
    exists mid :: CarriedBy(was, mid, now, q, gone)
  }

  ghost predicate CarriedBy(was: Rows, mid: Rows, now: Rows, q: Queue, gone: set<RecordId>)
  {
    && Overlaid(was - gone, mid, AllUpdates(q)) && Extended(mid, now, AllInserts(q))
    && forall u :: u in AllUpdates(q) ==> u.after.id in was - gone
  }

  lemma WriteCarries(db: Db, q: Queue)
    requires Integrity(db) && WriteQueue(db, q).Ok?
    ensures var now := WriteQueue(db, q).value;
            && Integrity(now) && now.zones == db.zones && now.commits == db.commits
            && Carried(db.rows, now.rows, q, Cascade(db.rows, Ids(AllDeletes(q))))
  {
    var dels, ins := Ordered(AllDeletes(q), true), Ordered(AllInserts(q), false);
    var less := DeleteAll(db, dels).value;
    DeletesCascade(db, dels);
    OrderedIsPermutation(AllDeletes(q), true);
    SameIds(dels, AllDeletes(q));
    var gone := Cascade(db.rows, Ids(AllDeletes(q)));
    DeleteKeepsIntegrity(db, gone);
    UpdatesOverlay(less, AllUpdates(q));
    var same := UpdateAll(less, AllUpdates(q)).value;
    InsertsExtend(same, ins);
    OrderedIsPermutation(AllInserts(q), false);
    ExtendedReordered(same.rows, InsertAll(same, ins).value.rows, ins, AllInserts(q));
    assert CarriedBy(db.rows, same.rows, WriteQueue(db, q).value.rows, q, gone);
  }

  /** What goes takes every queued removal, and from this zone nothing more. */
  ghost predicate Spares(was: Rows, q: Queue, z: ZoneId, gone: set<RecordId>)
  {
    && Ids(AllDeletes(q)) <= gone
    && forall id :: id in gone && id in was && was[id].zone == z ==> id in Ids(AllDeletes(q))
  }

  // ------------------------------------------------------ read zone by zone

  /** A change that would update a row its own removals take is refused. */
  lemma ClashRefused(db: Db, q: Queue, u: Update)
    requires Integrity(db) && u in AllUpdates(q) && u.after.id in Cascade(db.rows, Ids(AllDeletes(q)))
    ensures WriteQueue(db, q).Err?
  {
    if WriteQueue(db, q).Ok? {
      WriteCarries(db, q);
    }
  }

  lemma UniqueApart(rs: seq<Record>, i: nat, j: nat)
    requires UniqueIds(rs) && i < |rs| && j < |rs| && rs[i].id == rs[j].id
    ensures i == j
  {
  }

  /** An updated row is not also deleted, and is updated once. */
  lemma UpdatedOnce(rows: Rows, z: ZoneId, c: Changes, u: Update)
    requires WellQueuedIn(rows, z, c) && u in c.updates
    ensures forall d :: d in c.deletes ==> d.id != u.before.id
    ensures forall v :: v in c.updates && v.before.id == u.before.id ==> v == u
  {
    var i :| 0 <= i < |c.updates| && c.updates[i] == u;
    var n := |c.deletes|;
    assert Leaving(c)[n + i] == u.before;
    forall d | d in c.deletes
      ensures d.id != u.before.id
    {
      var j :| 0 <= j < n && c.deletes[j] == d;
      assert Leaving(c)[j] == d;
    }
    forall v | v in c.updates && v.before.id == u.before.id
      ensures v == u
    {
      var j :| 0 <= j < |c.updates| && c.updates[j] == v;
      assert Leaving(c)[n + j] == v.before;
      UniqueApart(Leaving(c), n + i, n + j);
    }
  }

  lemma UpdatedStands(was: Rows, mid: Rows, now: Rows, q: Queue, gone: set<RecordId>, z: ZoneId, u: Update)
    requires RowsOk(was) && WellQueued(was, q) && CarriedBy(was, mid, now, q, gone)
    requires u in q.For(z).updates
    ensures u.after.id in mid && mid[u.after.id] == u.after
  {
    var c, id := q.For(z), u.after.id;
    Queued(was, q, z);
    UpdateIsOwn(was, q, u);
    UpdatedOnce(was, z, c, u);
    assert Addressed(AllUpdates(q), id);
    var v :| v in AllUpdates(q) && v.after.id == id && v.after == mid[id];
    UpdateIsOwn(was, q, v);
  }

  /** A row that no change of its zone names is untouched. */
  lemma UnnamedStays(was: Rows, mid: Rows, q: Queue, gone: set<RecordId>, z: ZoneId, id: RecordId)
    requires RowsOk(was) && WellQueued(was, q)
    requires Spares(was, q, z, gone) && Overlaid(was - gone, mid, AllUpdates(q))
    requires Rest(was, z, Leaving(q.For(z)), id)
    ensures id in mid && mid[id] == was[id]
  {
    var c := q.For(z);
    IdsOf(Leaving(c), id);
    assert id !in Ids(AllDeletes(q)) by {
      IdsOf(AllDeletes(q), id);
      if d :| d in AllDeletes(q) && d.id == id {
        DeleteIsOwn(was, q, d);
        LeavingIs(c, d);
      }
    }
    assert !Addressed(AllUpdates(q), id) by {
      if u :| u in AllUpdates(q) && u.after.id == id {
        UpdateIsOwn(was, q, u);
        LeavingIs(c, u.before);
      }
    }
  }

  lemma ArrivingIdIs(was: Rows, mid: Rows, q: Queue, z: ZoneId, id: RecordId)
    requires WellQueued(was, q) && Ids(AllInserts(q)) !! mid.Keys
    requires id in mid && id in Ids(Arriving(q.For(z)))
    ensures id in Ids(Leaving(q.For(z)))
  {
    var c := q.For(z);
    Queued(was, q, z);
    IdsOf(Arriving(c), id);
    IdsOf(Leaving(c), id);
    var r :| r in Arriving(c) && r.id == id;
    ArrivingIs(c, r);
    if r in c.inserts {
      InsertIsOwn(was, q, r);
      IdsOf(AllInserts(q), id);
    } else {
      var u :| u in c.updates && u.after == r;
      LeavingIs(c, u.before);
    }
  }

  /** Read backwards: a row no change of its zone arrives at was there before. */
  lemma UnarrivedWasThere(was: Rows, mid: Rows, now: Rows, q: Queue, gone: set<RecordId>, z: ZoneId, id: RecordId)
    requires RowsOk(was) && WellQueued(was, q) && CarriedBy(was, mid, now, q, gone)
    requires Rest(now, z, Arriving(q.For(z)), id)
    ensures id in mid && id in was - gone && was[id] == now[id] && !Addressed(AllUpdates(q), id)
  {
    var c := q.For(z);
    IdsOf(Arriving(c), id);
    assert id in mid by {
      if id in Ids(AllInserts(q)) {
        IdsOf(AllInserts(q), id);
        var i :| 0 <= i < |AllInserts(q)| && AllInserts(q)[i].id == id;
        var r := AllInserts(q)[i];
        assert now[r.id] == r;
        InsertIsOwn(was, q, r);
        ArrivingIs(c, r);
      }
    }
    assert now[id] == mid[id];
    assert !Addressed(AllUpdates(q), id) by {
      if Addressed(AllUpdates(q), id) {
        var u :| u in AllUpdates(q) && u.after.id == id && u.after == mid[id];
        UpdateIsOwn(was, q, u);
        ArrivingIs(c, u.after);
      }
    }
  }

  lemma UnarrivedNotLeaving(was: Rows, mid: Rows, q: Queue, gone: set<RecordId>, z: ZoneId, id: RecordId)
    requires RowsOk(was) && WellQueued(was, q)
    requires Spares(was, q, z, gone) && Overlaid(was - gone, mid, AllUpdates(q))
    requires id in mid && !Addressed(AllUpdates(q), id)
    ensures id !in Ids(Leaving(q.For(z)))
  {
    var c := q.For(z);
    Queued(was, q, z);
    IdsOf(Leaving(c), id);
    if r :| r in Leaving(c) && r.id == id {
      LeavingIs(c, r);
      LeavingHeld(was, z, c, r);
      if r in c.deletes {
        DeleteIsOwn(was, q, r);
        IdsOf(AllDeletes(q), id);
      } else {
        var u :| u in c.updates && u.before == r;
        UpdateIsOwn(was, q, u);
      }
    }
  }

  lemma {:induction false} InsertsHold(q: Queue, n: nat, k: nat)
    requires k < n <= |q.order| && UniqueIds(Inserts(q, n))
    ensures UniqueIds(q.For(q.order[k]).inserts)
    decreases n
  {
    var front, last := Inserts(q, n - 1), q.For(q.order[n - 1]).inserts;
    if k < n - 1 {
      forall i, j | 0 <= i < j < |front|
        ensures front[i].id != front[j].id
      {
        assert Inserts(q, n)[i] == front[i] && Inserts(q, n)[j] == front[j];
      }
      InsertsHold(q, n - 1, k);
    } else {
      forall i, j | 0 <= i < j < |last|
        ensures last[i].id != last[j].id
      {
        assert Inserts(q, n)[|front| + i] == last[i] && Inserts(q, n)[|front| + j] == last[j];
      }
    }
  }

  lemma UniqueInserts(q: Queue, z: ZoneId)
    requires q.Proper() && UniqueIds(AllInserts(q))
    ensures UniqueIds(q.For(z).inserts)
  {
    if z in q.byZone {
      assert z in q.order;
      var k :| 0 <= k < |q.order| && q.order[k] == z;
      InsertsHold(q, |q.order|, k);
    }
  }

  lemma UniqueAfters(rows: Rows, z: ZoneId, c: Changes)
    requires WellQueuedIn(rows, z, c)
    ensures UniqueIds(Afters(c.updates))
  {
    var n := |c.deletes|;
    forall i, j | 0 <= i < j < |c.updates|
      ensures Afters(c.updates)[i].id != Afters(c.updates)[j].id
    {
      assert Leaving(c)[n + i] == c.updates[i].before && Leaving(c)[n + j] == c.updates[j].before;
      assert c.updates[i] in c.updates && c.updates[j] in c.updates;
    }
  }

  lemma UniqueBoth(a: seq<Record>, b: seq<Record>)
    requires UniqueIds(a) && UniqueIds(b) && Ids(a) !! Ids(b)
    ensures UniqueIds(a + b)
  {
    forall i, j | 0 <= i < j < |a + b|
      ensures (a + b)[i].id != (a + b)[j].id
    {
      if i < |a| && j >= |a| {
        assert a[i].id in Ids(a) && b[j - |a|].id in Ids(b);
      }
    }
  }

  lemma ArrivingStands(was: Rows, mid: Rows, now: Rows, q: Queue, gone: set<RecordId>, z: ZoneId, r: Record)
    requires RowsOk(was) && WellQueued(was, q) && CarriedBy(was, mid, now, q, gone)
    requires r in Arriving(q.For(z))
    ensures r.id in now && now[r.id] == r && r.zone == z
  {
    var c := q.For(z);
    Queued(was, q, z);
    ArrivingIs(c, r);
    if r in c.inserts {
      InsertIsOwn(was, q, r);
      var i :| 0 <= i < |AllInserts(q)| && AllInserts(q)[i] == r;
    } else {
      var u :| u in c.updates && u.after == r;
      UpdatedStands(was, mid, now, q, gone, z, u);
    }
  }

  lemma ArrivingUnique(was: Rows, mid: Rows, now: Rows, q: Queue, gone: set<RecordId>, z: ZoneId)
    requires RowsOk(was) && WellQueued(was, q) && CarriedBy(was, mid, now, q, gone)
    ensures UniqueIds(Arriving(q.For(z)))
  {
    var c := q.For(z);
    Queued(was, q, z);
    UniqueInserts(q, z);
    UniqueAfters(was, z, c);
    forall id | id in Ids(Afters(c.updates))
      ensures id !in Ids(c.inserts)
    {
      var i :| 0 <= i < |c.updates| && Afters(c.updates)[i].id == id;
      UpdatedStands(was, mid, now, q, gone, z, c.updates[i]);
      IdsOf(c.inserts, id);
      if r :| r in c.inserts && r.id == id {
        InsertIsOwn(was, q, r);
        IdsOf(AllInserts(q), id);
      }
    }
    UniqueBoth(Afters(c.updates), c.inserts);
  }

  /** Zone by zone, carrying a queue out replaces what leaves by what arrives. */
  lemma CarriedReplaces(was: Rows, mid: Rows, now: Rows, q: Queue, gone: set<RecordId>, z: ZoneId)
    requires RowsOk(was) && WellQueued(was, q) && Spares(was, q, z, gone) && CarriedBy(was, mid, now, q, gone)
    ensures Replaced(was, now, z, Leaving(q.For(z)), Arriving(q.For(z)))
  {
    var c := q.For(z);
    Queued(was, q, z);
    ArrivingUnique(was, mid, now, q, gone, z);
    forall i | 0 <= i < |Arriving(c)|
      ensures Arriving(c)[i].id in now && now[Arriving(c)[i].id] == Arriving(c)[i] && Arriving(c)[i].zone == z
    {
      ArrivingStands(was, mid, now, q, gone, z, Arriving(c)[i]);
    }
    forall id | Rest(was, z, Leaving(c), id)
      ensures Rest(now, z, Arriving(c), id) && now[id] == was[id]
    {
      UnnamedStays(was, mid, q, gone, z, id);
      if id in Ids(Arriving(c)) {
        ArrivingIdIs(was, mid, q, z, id);
      }
    }
    forall id | Rest(now, z, Arriving(c), id)
      ensures Rest(was, z, Leaving(c), id)
    {
      UnarrivedWasThere(was, mid, now, q, gone, z, id);
      UnarrivedNotLeaving(was, mid, q, gone, z, id);
    }
  }

  /** The main step: a zone from which the removals take no row they do not name
      ends up serving what its own changes say. */
  lemma WriteServes(db: Db, q: Queue, z: ZoneId)
    requires Integrity(db) && WellQueued(db.rows, q) && WriteQueue(db, q).Ok?
    requires Spares(db.rows, q, z, Cascade(db.rows, Ids(AllDeletes(q))))
    ensures Fits(Served(db.rows, z), q.For(z))
    ensures Served(WriteQueue(db, q).value.rows, z) == Outcome(Served(db.rows, z), q.For(z))
  {
    WriteCarries(db, q);
    var gone, now := Cascade(db.rows, Ids(AllDeletes(q))), WriteQueue(db, q).value.rows;
    var mid :| CarriedBy(db.rows, mid, now, q, gone);
    CarriedReplaces(db.rows, mid, now, q, gone, z);
    ReplacedServes(db.rows, now, z, q.For(z));
  }
}
