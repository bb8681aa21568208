/** The names a queue touches bound what carrying it out changes, so checking them
    is checking the zone. */
module Accepted {
  import opened Dns
  import opened Changes
  import opened Ordering
  import opened Store
  import opened Write
  import opened View
  import opened Carry
  import opened Batch
  import opened Upkeep
  import opened Runs
  import opened Validation

  ghost function RecordsIn(rows: Rows, z: ZoneId): set<Record>
  {
    set id | id in rows && rows[id].zone == z :: rows[id]
  }

  ghost predicate Names(rs: seq<Record>, n: Name)
  {
    exists r :: r in rs && r.name == n
  }

  lemma TouchedIs(c: Changes, n: Name)
    requires InStep(c)
    ensures n in c.touched <==> Names(Leaving(c), n) || Names(Arriving(c), n)
  {
    forall r
      ensures r in Leaving(c) <==> r in c.deletes || exists u :: u in c.updates && u.before == r
      ensures r in Arriving(c) <==> r in c.inserts || exists u :: u in c.updates && u.after == r
    {
      LeavingIs(c, r);
      ArrivingIs(c, r);
    }
    if u :| u in c.updates && (u.before.name == n || u.after.name == n) {
      assert u.before in Leaving(c) && u.after in Arriving(c);
    }
  }

  lemma SameWhereUntouched(was: Rows, now: Rows, z: ZoneId, c: Changes, n: Name)
    requires RowsOk(was) && RowsOk(now) && Replaced(was, now, z, Leaving(c), Arriving(c)) && InStep(c) && n !in c.touched
    ensures OwnedBy(RecordsIn(was, z), n) == OwnedBy(RecordsIn(now, z), n)
  {
    TouchedIs(c, n);
    forall r | r in OwnedBy(RecordsIn(was, z), n)
      ensures r in OwnedBy(RecordsIn(now, z), n)
    {
      IdsOf(Leaving(c), r.id);
      if s :| s in Leaving(c) && s.id == r.id {
        LeavingHeld(was, z, c, s);
      }
      assert Rest(was, z, Leaving(c), r.id);
    }
    forall r | r in OwnedBy(RecordsIn(now, z), n)
      ensures r in OwnedBy(RecordsIn(was, z), n)
    {
      if i :| 0 <= i < |Arriving(c)| && Arriving(c)[i].id == r.id {
        assert false;
      }
      assert Rest(now, z, Arriving(c), r.id);
      assert Rest(was, z, Leaving(c), r.id);
    }
  }

  /** What carrying a zone's changes out replaced is within what they touch. */
  lemma TouchedBounds(was: Rows, now: Rows, z: ZoneId, c: Changes, names: seq<Name>)
    requires RowsOk(was) && RowsOk(now) && Replaced(was, now, z, Leaving(c), Arriving(c)) && InStep(c)
    requires forall n :: n in names <==> n in c.touched
    ensures Touches(RecordsIn(was, z), RecordsIn(now, z), names)
  {
    forall n | n !in set m | m in names
      ensures OwnedBy(RecordsIn(was, z), n) == OwnedBy(RecordsIn(now, z), n)
    {
      SameWhereUntouched(was, now, z, c, n);
    }
    forall n | n in names
      ensures Owns(RecordsIn(was, z), n) || Owns(RecordsIn(now, z), n)
    {
      TouchedIs(c, n);
      if Names(Leaving(c), n) {
        var r :| r in Leaving(c) && r.name == n;
        LeavingHeld(was, z, c, r);
        assert r in RecordsIn(was, z);
      } else {
        var r :| r in Arriving(c) && r.name == n;
        var i :| 0 <= i < |Arriving(c)| && Arriving(c)[i] == r;
        assert r in RecordsIn(now, z);
      }
    }
  }

  // ---------------------------------------------------- a written batch, checked

  /** Carried out with removals that are closed, a batch changes the zone within what
      was queued for it. */
  lemma WrittenTouches(db: Db, p: Intent, q: Queue, z: ZoneId, next: Db, names: seq<Name>)
    requires Integrity(db) && WellQueued(db.rows, q) && WriteBatch(db, EditBatch(p, q)) == Ok(next)
    requires Closed(db.rows, Ids(AllDeletes(q))) && InStep(q.For(z))
    requires forall n :: n in names <==> n in q.For(z).touched
    ensures Touches(RecordsIn(db.rows, z), RecordsIn(next.rows, z), names)
  {
    var gone, carried := Ids(AllDeletes(q)), WriteQueue(db, q).value;
    ClosedIffNoMore(db.rows, gone);
    WriteCarries(db, q);
    RecordKeepsIntegrity(carried, next, EditBatch(p, q), EditBatch(p, q).commits);
    var mid :| CarriedBy(db.rows, mid, next.rows, q, gone);
    CarriedReplaces(db.rows, mid, next.rows, q, gone, z);
    TouchedBounds(db.rows, next.rows, z, q.For(z), names);
  }

  /** So checking what was queued for a zone in order accepts a written batch if and
      only if the zone it leaves is in order. */
  method ValidateWritten(cut: Cut, ghost db: Db, ghost p: Intent, ghost q: Queue, ghost z: ZoneId, ghost next: Db,
                         after: set<Record>, names: seq<Name>, under: Name -> seq<Record>) returns (ok: bool)
    requires Integrity(db) && WellQueued(db.rows, q) && WriteBatch(db, EditBatch(p, q)) == Ok(next)
    requires Closed(db.rows, Ids(AllDeletes(q))) && InStep(q.For(z))
    requires (forall n :: n in names <==> n in q.For(z).touched) && after == RecordsIn(next.rows, z)
    requires WholeZoneOk(cut, RecordsIn(db.rows, z)) && forall n :: Lists(after, n, under(n))
    ensures ok <==> WholeZoneOk(cut, RecordsIn(next.rows, z))
  {
    WrittenTouches(db, p, q, z, next, names);
    ok := Validate(cut, RecordsIn(db.rows, z), after, names, under);
  }
}
