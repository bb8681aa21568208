/** What generated records hang off: kept an address or an entry by every change
    but one, which is why removals leave nothing unrecorded. */
module Provenance {
  import opened Dns
  import opened Changes
  import opened Ordering
  import opened Store
  import opened Write
  import opened Carry
  import opened Reverse
  import opened Generation
  import opened Expansion
  import opened Upshot

  /** Every generated record hangs off an address record or an entry. */
  ghost predicate Traced(rows: Rows)
  {
    forall id :: id in rows && rows[id].managedBy.Some? && rows[id].managedBy.value in rows ==>
      CanGenerate(rows[rows[id].managedBy.value].typ)
  }

  /** Then no removal takes anything along that retiring would not look for. */
  lemma TracedIsKnown(rows: Rows, ds: seq<Record>)
    requires Traced(rows) && Present(rows, ds)
    ensures Known(rows, ds, true)
  {
    forall d | d in ds && Below(rows, {d.id}) != {}
      ensures CanGenerate(d.typ)
    {
      var x :| x in Below(rows, {d.id});
      var i :| 0 <= i < |ds| && ds[i] == d;
    }
  }

  lemma FewerTraced(was: Rows, now: Rows)
    requires Traced(was) && forall id :: id in now ==> id in was && now[id] == was[id]
    ensures Traced(now)
  {
  }

  // ------------------------------------------------------------- one command

  /** A record that stops being one to hang off while something the command leaves
      alone does. Where the automation is on, only an entry can: what hangs off an
      address record is retired. */
  ghost predicate Retypes(rows: Rows, c: Changes, on: bool, u: Update)
  {
    && u in c.updates && CanGenerate(u.before.typ) && !CanGenerate(u.after.typ) && (on ==> u.before.typ == PTR)
    && exists x :: x in Below(rows, {u.before.id}) && x !in Ids(Befores(c.updates))
  }

  ghost predicate RetypesNone(rows: Rows, c: Changes, on: bool)
  {
    forall u :: u in c.updates ==> !Retypes(rows, c, on, u)
  }

  /** A command and its expansion, on a store that traces what it generated, with
      nothing hanging off a record it removes that it does not look for. */
  ghost predicate Expanding(w: World, policy: Policy, q: Queue, src: ZoneId, next: Queue)
  {
    && Integrity(w.db) && Traced(w.db.rows) && Commanded(w.db, q, src) && Expanded(w, policy, q, src, next)
    && Known(w.db.rows, q.For(src).deletes, w.Automates(src))
  }

  lemma AutomatedIsKnown(w: World, q: Queue, src: ZoneId)
    requires Traced(w.db.rows) && Commanded(w.db, q, src) && w.Automates(src)
    ensures Known(w.db.rows, q.For(src).deletes, true)
  {
    Queued(w.db.rows, q, src);
    OwnDeletes(w.db.rows, q, src);
    TracedIsKnown(w.db.rows, q.For(src).deletes);
  }

  /** The rows such a command leaves. */
  ghost predicate Left(w: World, next: Queue, mid: Rows, now: Rows)
  {
    CarriedBy(w.db.rows, mid, now, next, Ids(AllDeletes(next)))
  }

  lemma ExpandingClosed(w: World, policy: Policy, q: Queue, src: ZoneId, next: Queue)
    requires Expanding(w, policy, q, src, next)
    ensures Closed(w.db.rows, Ids(AllDeletes(next)))
  {
    ExpandedClosedIff(w, policy, q, src, next);
  }

  lemma ExpandingLeaves(w: World, policy: Policy, q: Queue, src: ZoneId, next: Queue, now: Db) returns (mid: Rows)
    requires Expanding(w, policy, q, src, next) && WriteQueue(w.db, next) == Ok(now)
    ensures Integrity(now) && Left(w, next, mid, now.rows)
  {
    ExpandingClosed(w, policy, q, src, next);
    ClosedIffNoMore(w.db.rows, Ids(AllDeletes(next)));
    WriteCarries(w.db, next);
    mid :| CarriedBy(w.db.rows, mid, now.rows, next, Ids(AllDeletes(next)));
  }

  /** Every update of the expansion is one of the command's own. */
  lemma OwnUpdates(w: World, policy: Policy, q: Queue, src: ZoneId, next: Queue, u: Update)
    requires Expanding(w, policy, q, src, next)
    ensures u in AllUpdates(next) <==> u in q.For(src).updates
  {
    UpdateIsOwn(w.db.rows, next, u);
    assert KeepsIn(q.For(u.after.zone), next.For(u.after.zone));
    Queued(w.db.rows, q, src);
  }

  lemma UpdateLeft(w: World, policy: Policy, q: Queue, src: ZoneId, next: Queue, mid: Rows, now: Rows, u: Update)
    requires Expanding(w, policy, q, src, next) && Left(w, next, mid, now) && u in q.For(src).updates
    ensures u.before.id in now && now[u.before.id] == u.after
  {
    OwnUpdates(w, policy, q, src, next, u);
    UpdateIsOwn(w.db.rows, next, u);
    UpdatedStands(w.db.rows, mid, now, next, Ids(AllDeletes(next)), u.after.zone, u);
  }

  lemma InsertLeft(w: World, next: Queue, mid: Rows, now: Rows, r: Record)
    requires next.Proper() && Left(w, next, mid, now) && Adds(next, r)
    ensures r.id in now && now[r.id] == r
  {
    AddsIs(next, r);
    var i :| 0 <= i < |AllInserts(next)| && AllInserts(next)[i] == r;
  }

  /** A row that stays: unchanged, or as the command updates it. */
  lemma StaysOrUpdated(w: World, policy: Policy, q: Queue, src: ZoneId, next: Queue, mid: Rows, now: Rows, id: RecordId)
    requires Expanding(w, policy, q, src, next) && Left(w, next, mid, now) && id in mid
    ensures id in w.db.rows && id !in Ids(AllDeletes(next)) && id in now
    ensures now[id] == w.db.rows[id] || exists u :: u in q.For(src).updates && u.before == w.db.rows[id] && u.after == now[id]
  {
    var rows := w.db.rows;
    if Addressed(AllUpdates(next), id) {
      var u :| u in AllUpdates(next) && u.after.id == id && u.after == mid[id];
      OwnUpdates(w, policy, q, src, next, u);
      UpdateIsOwn(rows, next, u);
    }
  }

  /** Any other row is one that was added. */
  lemma NewIsAdded(w: World, next: Queue, mid: Rows, now: Rows, id: RecordId)
    requires next.Proper() && Left(w, next, mid, now) && id in now && id !in mid
    ensures Adds(next, now[id])
  {
    var i :| 0 <= i < |AllInserts(next)| && AllInserts(next)[i].id == id;
    AddsIs(next, AllInserts(next)[i]);
  }

  /** What was added hangs off an address record or an entry. */
  lemma AddedTraced(w: World, policy: Policy, q: Queue, src: ZoneId, next: Queue, mid: Rows, now: Rows, r: Record)
    requires Expanding(w, policy, q, src, next) && Left(w, next, mid, now) && Adds(next, r) && r.managedBy.Some?
    ensures r.managedBy.value in now && CanGenerate(now[r.managedBy.value].typ)
  {
    var c := q.For(src);
    assert !Adds(q, r);
    var s :| s in Givers(w, src, c) && Implied(w, next, s, r);
    if IsEntry(w, s, r) {
      SourceLeft(w, policy, q, src, next, mid, now, s);
    } else {
      var e :| Adds(next, e) && IsSignpost(w, s, e, r);
      InsertLeft(w, next, mid, now, e);
    }
  }

  lemma SourceLeft(w: World, policy: Policy, q: Queue, src: ZoneId, next: Queue, mid: Rows, now: Rows, s: Record)
    requires Expanding(w, policy, q, src, next) && Left(w, next, mid, now) && s in Givers(w, src, q.For(src))
    ensures s.id in now && now[s.id] == s
  {
    var c := q.For(src);
    if s in c.inserts {
      assert KeepsIn(c, next.For(src));
      assert s in next.For(src).inserts;
      assert Adds(next, s);
      InsertLeft(w, next, mid, now, s);
    } else {
      MoversAre(c.updates, s);
      var u :| u in c.updates && u.after == s;
      Queued(w.db.rows, q, src);
      UpdateLeft(w, policy, q, src, next, mid, now, u);
    }
  }

  /** An update that takes a record out of those that generate, without retiring what
      it generated, is one of an entry. */
  lemma UnmovedIsEntry(u: Update)
    requires ValidRecord(u.before) && CanGenerate(u.before.typ) && !CanGenerate(u.after.typ)
    ensures Moves(u) <==> u.before.typ != PTR
  {
  }

  /** What hangs off a record that moves is removed. */
  lemma MovedIsBare(w: World, policy: Policy, q: Queue, src: ZoneId, next: Queue, u: Update, x: RecordId)
    requires Expanding(w, policy, q, src, next) && u in q.For(src).updates && w.Automates(src) && Moves(u) && x in Below(w.db.rows, {u.before.id})
    ensures x in Ids(AllDeletes(next))
  {
    var rows, roots := w.db.rows, Roots(q.For(src));
    assert u.before.id in roots;
    RootsAuthored(w.db, q, src);
    assert x in Below(rows, Cascade(rows, roots));
  }

  lemma StaysTraced(w: World, policy: Policy, q: Queue, src: ZoneId, next: Queue, mid: Rows, now: Rows, id: RecordId)
    requires Expanding(w, policy, q, src, next) && Left(w, next, mid, now) && RetypesNone(w.db.rows, q.For(src), w.Automates(src))
    requires id in mid && now[id].managedBy.Some? && now[id].managedBy.value in mid
    ensures CanGenerate(now[now[id].managedBy.value].typ)
  {
    var rows, c := w.db.rows, q.For(src);
    Queued(rows, q, src);
    StaysOrUpdated(w, policy, q, src, next, mid, now, id);
    assert now[id] == rows[id];
    var s := rows[id].managedBy.value;
    StaysOrUpdated(w, policy, q, src, next, mid, now, s);
    if now[s] != rows[s] {
      var u :| u in c.updates && u.before == rows[s] && u.after == now[s];
      assert id in Below(rows, {u.before.id});
      if !CanGenerate(u.after.typ) {
        UnmovedIsEntry(u);
        if w.Automates(src) && Moves(u) {
          MovedIsBare(w, policy, q, src, next, u, id);
        }
        assert !Retypes(rows, c, w.Automates(src), u);
        NotUpdated(w, policy, q, src, next, mid, now, id);
      }
    }
  }

  lemma NotUpdated(w: World, policy: Policy, q: Queue, src: ZoneId, next: Queue, mid: Rows, now: Rows, id: RecordId)
    requires Expanding(w, policy, q, src, next) && Left(w, next, mid, now) && id in mid && now[id].managedBy.Some?
    ensures id !in Ids(Befores(q.For(src).updates))
  {
    var us := q.For(src).updates;
    forall i | 0 <= i < |us|
      ensures Befores(us)[i].id != id
    {
      UpdatedIsAuthored(w, policy, q, src, next, mid, now, us[i]);
    }
  }

  lemma UpdatedIsAuthored(w: World, policy: Policy, q: Queue, src: ZoneId, next: Queue, mid: Rows, now: Rows, u: Update)
    requires Expanding(w, policy, q, src, next) && Left(w, next, mid, now) && u in q.For(src).updates
    ensures u.before.id in now && now[u.before.id].managedBy.None?
  {
    UpdateLeft(w, policy, q, src, next, mid, now, u);
    Queued(w.db.rows, q, src);
    assert InPlace(src, u);
  }

  /** A row that hangs off what was deleted is deleted too. */
  lemma SourceStays(w: World, policy: Policy, q: Queue, src: ZoneId, next: Queue, mid: Rows, now: Rows, id: RecordId)
    requires Expanding(w, policy, q, src, next) && Left(w, next, mid, now) && id in mid && now[id].managedBy.Some?
    ensures now[id].managedBy.value in mid
  {
    var rows, gone := w.db.rows, Ids(AllDeletes(next));
    Queued(rows, q, src);
    ExpandingClosed(w, policy, q, src, next);
    StaysOrUpdated(w, policy, q, src, next, mid, now, id);
    assert now[id] == rows[id];
    assert id !in Below(rows, gone);
  }

  /** A command keeps every generated record hanging off an address record or an
      entry if and only if it retypes no record something it leaves hangs off. */
  lemma TracedIff(w: World, policy: Policy, q: Queue, src: ZoneId, next: Queue, now: Db)
    requires Expanding(w, policy, q, src, next) && WriteQueue(w.db, next) == Ok(now)
    ensures Traced(now.rows) <==> RetypesNone(w.db.rows, q.For(src), w.Automates(src))
  {
    var mid := ExpandingLeaves(w, policy, q, src, next, now);
    if RetypesNone(w.db.rows, q.For(src), w.Automates(src)) {
      forall id | id in now.rows && now.rows[id].managedBy.Some?
        ensures CanGenerate(now.rows[now.rows[id].managedBy.value].typ)
      {
        if id in mid {
          SourceStays(w, policy, q, src, next, mid, now.rows, id);
          StaysTraced(w, policy, q, src, next, mid, now.rows, id);
        } else {
          NewIsAdded(w, next, mid, now.rows, id);
          AddedTraced(w, policy, q, src, next, mid, now.rows, now.rows[id]);
        }
      }
    } else {
      var u :| u in q.For(src).updates && Retypes(w.db.rows, q.For(src), w.Automates(src), u);
      RetypedIsUntraced(w, policy, q, src, next, mid, now.rows, u);
    }
  }

  lemma RetypedIsAuthored(w: World, q: Queue, src: ZoneId, u: Update)
    requires Commanded(w.db, q, src) && Retypes(w.db.rows, q.For(src), w.Automates(src), u)
    ensures u.before.managedBy.None? && !(w.Automates(src) && Moves(u))
  {
    assert EditsOrDetaches(u);
  }

  lemma RetypedIsUntraced(w: World, policy: Policy, q: Queue, src: ZoneId, next: Queue, mid: Rows, now: Rows, u: Update)
    requires Expanding(w, policy, q, src, next) && Left(w, next, mid, now) && Retypes(w.db.rows, q.For(src), w.Automates(src), u)
    ensures !Traced(now)
  {
    var rows, c := w.db.rows, q.For(src);
    var x :| x in Below(rows, {u.before.id}) && x !in Ids(Befores(c.updates));
    RetypedIsAuthored(w, q, src, u);
    BelowUnmovedStays(w, policy, q, src, next, u, x);
    UpdateLeft(w, policy, q, src, next, mid, now, u);
    UnnamedIsSame(w, policy, q, src, next, mid, now, x);
    assert now[x].managedBy == Some(u.before.id);
  }

  lemma UnnamedIsSame(w: World, policy: Policy, q: Queue, src: ZoneId, next: Queue, mid: Rows, now: Rows, x: RecordId)
    requires Expanding(w, policy, q, src, next) && Left(w, next, mid, now)
    requires x in w.db.rows && x !in Ids(AllDeletes(next)) && x !in Ids(Befores(q.For(src).updates))
    ensures x in now && now[x] == w.db.rows[x]
  {
    var us := q.For(src).updates;
    StaysOrUpdated(w, policy, q, src, next, mid, now, x);
    assert forall i :: 0 <= i < |us| ==> Befores(us)[i] == us[i].before;
    assert forall u :: u in us ==> u.before.id != x;
  }

  /** What hangs off a record that is updated in its place is not removed. */
  lemma BelowUnmovedStays(w: World, policy: Policy, q: Queue, src: ZoneId, next: Queue, u: Update, x: RecordId)
    requires Expanding(w, policy, q, src, next) && u in q.For(src).updates && !(w.Automates(src) && Moves(u)) && u.before.managedBy.None?
    requires x in Below(w.db.rows, {u.before.id})
    ensures x !in Ids(AllDeletes(next))
  {
    var rows, c, roots := w.db.rows, q.For(src), Tops(w, src, q.For(src));
    DeletesFirst(w.db, q, src);
    AddedHangs(rows, roots);
    Queued(rows, q, src);
    LeavingIs(c, u.before);
    LeavingHeld(rows, src, c, u.before);
    UpdatedOnce(rows, src, c, u);
    assert u.before.id !in roots;
    assert u.before.id in Cascade(rows, roots) ==> u.before.id in Below(rows, Cascade(rows, roots));
    assert x in Cascade(rows, roots) - roots ==> x in Below(rows, Cascade(rows, roots));
  }
}
