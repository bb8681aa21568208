/** Where generated entries stand. As long as each stands at its own record's address,
    reconciling twice does nothing more than reconciling once, in whatever order. */
module Seats {
  import opened Dns
  import opened Changes
  import opened Ordering
  import opened Store
  import opened Write
  import opened Carry
  import opened Batch
  import opened Upkeep
  import opened Reverse
  import opened Generation
  import opened Expansion
  import opened Reconcile
  import opened Again
  import opened Provenance

  /** An address's name in a zone. */
  type Owner = (ZoneId, Address) -> Name

  /** Every generated entry hangs off an authored address record, and stands at the name
      of that record's address in its zone. */
  ghost predicate Seated(owner: Owner, rows: Rows)
  {
    forall id :: id in rows && rows[id].typ == PTR && rows[id].managedBy.Some? ==> SeatedAt(owner, rows, rows[id])
  }

  ghost predicate SeatedAt(owner: Owner, rows: Rows, e: Record)
    requires e.managedBy.Some?
  {
    e.managedBy.value in rows && SeatOf(owner, rows[e.managedBy.value], e)
  }

  ghost predicate SeatOf(owner: Owner, s: Record, e: Record)
  {
    s.managedBy.None? && AddressOf(s).Some? && e.name == owner(e.zone, AddressOf(s).value)
  }

  /** No two addresses share a name in a zone. */
  ghost predicate OneAddressEach(owner: Owner)
  {
    forall z, a, b :: owner(z, a) == owner(z, b) ==> a == b
  }

  // -------------------------------------------------- then every order settles

  ghost predicate Seating(w: World, sources: seq<Record>)
  {
    RowsOk(w.db.rows) && Sources(w.db.rows, sources) && Seated(w.ownerIn, w.db.rows) && OneAddressEach(w.ownerIn)
  }

  /** What hangs off an authored record is retired only as one of its own. */
  lemma RetiredIsStale(w: World, s: Record, h: RecordId)
    requires h in Cascade(w.db.rows, Stale(w, s)) && h in w.db.rows && w.db.rows[h].managedBy.Some?
    requires w.db.rows[h].managedBy.value in w.db.rows && w.db.rows[w.db.rows[h].managedBy.value].managedBy.None?
    ensures h in Stale(w, s)
  {
    var rows := w.db.rows;
    var deep := set id | id in rows && rows[id].managedBy.Some? &&
                         (rows[id].managedBy.value in rows ==> rows[rows[id].managedBy.value].managedBy.Some?);
    CascadeIsLeast(rows, Stale(w, s), Stale(w, s) + deep);
  }

  /** No record retires an entry that stands at another's spot. */
  lemma SpotIsKept(w: World, policy: Policy, sources: seq<Record>, j: nat, k: nat, h: RecordId)
    requires Seating(w, sources)
    requires j < |sources| && k < |sources| && SpotOf(w, policy, sources[k]).Some? && h in Holders(w.db.rows, SpotOf(w, policy, sources[k]).value)
    ensures h !in Cascade(w.db.rows, Stale(w, sources[j]))
  {
    var rows, s := w.db.rows, sources[j];
    if h in Cascade(rows, Stale(w, s)) {
      StaleIsGenerated(w, s, h);
      RetiredIsStale(w, s, h);
    }
  }

  lemma StaleIsGenerated(w: World, s: Record, h: RecordId)
    requires h in Cascade(w.db.rows, Stale(w, s))
    ensures h in w.db.rows && w.db.rows[h].managedBy.Some?
  {
    var rows := w.db.rows;
    var made := set id | id in rows && rows[id].managedBy.Some?;
    CascadeIsLeast(rows, Stale(w, s), made);
  }

  lemma {:induction false} SpotOutlasts(w: World, policy: Policy, sources: seq<Record>, n: nat, k: nat, h: RecordId)
    requires Seating(w, sources)
    requires n <= |sources| && k < |sources| && SpotOf(w, policy, sources[k]).Some? && h in Holders(w.db.rows, SpotOf(w, policy, sources[k]).value)
    ensures h !in Overtaken(w, sources, n)
  {
    if n > 0 {
      SpotIsKept(w, policy, sources, n - 1, k, h);
      SpotOutlasts(w, policy, sources, n - 1, k, h);
    }
  }

  /** On such a store a pass settles, in whatever order it takes the records. */
  lemma SeatedSettles(w: World, policy: Policy, sources: seq<Record>)
    requires Seating(w, sources)
    ensures Settles(w, policy, sources)
  {
    forall k | 0 <= k < |sources|
      ensures SettlesAt(w, policy, sources, SpotOf(w, policy, sources[k]))
    {
      var spot := SpotOf(w, policy, sources[k]);
      if spot.Some? {
        if h :| h in Holders(w.db.rows, spot.value) {
          SpotOutlasts(w, policy, sources, |sources|, k, h);
        } else {
          assert Opens(w, policy, sources, k, spot.value);
        }
      }
    }
  }

  /** So a second pass directly afterwards plans nothing. */
  lemma SecondPassIsEmpty(w: World, policy: Policy, sources: seq<Record>, first: RecordId, q: Queue, mint: RecordId, p: Intent,
                          later: World, again: RecordId, second: Queue, last: RecordId)
    requires Integrity(w.db) && Seated(w.ownerIn, w.db.rows) && OneAddressEach(w.ownerIn)
    requires Sources(w.db.rows, sources) && WholePass(w, policy, sources, first, q, mint)
    requires WriteBatch(w.db, EditBatch(p, q)) == Ok(later.db) && forall s :: s in sources ==> Place(later, s) == Place(w, s)
    requires WholePass(later, policy, sources, again, second, last)
    ensures second.Empty()
  {
    SeatedSettles(w, policy, sources);
    SecondPassEmptyIff(w, policy, sources, first, q, mint, p, later, again, second, last);
  }

  // ---------------------------------------------------- what a command leaves so

  /** An update that leaves an entry behind at the address its record had. */
  ghost predicate Unseats(owner: Owner, rows: Rows, c: Changes, on: bool, u: Update)
  {
    && u in c.updates && !(on && Moves(u))
    && exists x :: x in Below(rows, {u.before.id}) && x !in Ids(Befores(c.updates)) && rows[x].typ == PTR && !SeatOf(owner, u.after, rows[x])
  }

  ghost predicate UnseatsNone(owner: Owner, rows: Rows, c: Changes, on: bool)
  {
    forall u :: u in c.updates ==> !Unseats(owner, rows, c, on, u)
  }

  /** Where the automation is on, none does. */
  lemma AutomatedUnseatsNone(w: World, q: Queue, src: ZoneId)
    requires Integrity(w.db) && Commanded(w.db, q, src) && Seated(w.ownerIn, w.db.rows)
    ensures UnseatsNone(w.ownerIn, w.db.rows, q.For(src), true)
  {
    var rows, c := w.db.rows, q.For(src);
    Queued(rows, q, src);
    forall u, x | u in c.updates && !Moves(u) && x in Below(rows, {u.before.id}) && rows[x].typ == PTR
      ensures SeatOf(w.ownerIn, u.after, rows[x])
    {
      LeavingIs(c, u.before);
      LeavingHeld(rows, src, c, u.before);
      assert SeatedAt(w.ownerIn, rows, rows[x]);
      assert EditsOrDetaches(u);
    }
  }

  /** An entry that stays has its record's address still. */
  lemma StaysSeated(w: World, policy: Policy, q: Queue, src: ZoneId, next: Queue, mid: Rows, now: Rows, id: RecordId)
    requires Expanding(w, policy, q, src, next) && Left(w, next, mid, now) && Seated(w.ownerIn, w.db.rows)
    requires UnseatsNone(w.ownerIn, w.db.rows, q.For(src), w.Automates(src))
    requires id in mid && now[id].typ == PTR && now[id].managedBy.Some?
    ensures SeatedAt(w.ownerIn, now, now[id])
  {
    var rows, c := w.db.rows, q.For(src);
    Queued(rows, q, src);
    SourceStays(w, policy, q, src, next, mid, now, id);
    StaysOrUpdated(w, policy, q, src, next, mid, now, id);
    assert now[id] == rows[id];
    var s := rows[id].managedBy.value;
    StaysOrUpdated(w, policy, q, src, next, mid, now, s);
    assert SeatedAt(w.ownerIn, rows, rows[id]);
    if now[s] != rows[s] {
      var u :| u in c.updates && u.before == rows[s] && u.after == now[s];
      assert id in Below(rows, {u.before.id});
      NotUpdated(w, policy, q, src, next, mid, now, id);
      if w.Automates(src) && Moves(u) {
        MovedIsBare(w, policy, q, src, next, u, id);
      }
      assert !Unseats(w.ownerIn, rows, c, w.Automates(src), u);
    }
  }

  lemma AddedSeated(w: World, policy: Policy, q: Queue, src: ZoneId, next: Queue, mid: Rows, now: Rows, r: Record)
    requires Expanding(w, policy, q, src, next) && Left(w, next, mid, now) && Adds(next, r) && r.typ == PTR && r.managedBy.Some?
    ensures SeatedAt(w.ownerIn, now, r)
  {
    assert !Adds(q, r);
    var s :| s in Givers(w, src, q.For(src)) && Implied(w, next, s, r);
    assert IsEntry(w, s, r);
    SourceLeft(w, policy, q, src, next, mid, now, s);
  }

  lemma UnseatedIsNot(w: World, policy: Policy, q: Queue, src: ZoneId, next: Queue, mid: Rows, now: Rows, u: Update)
    requires Expanding(w, policy, q, src, next) && Left(w, next, mid, now) && Seated(w.ownerIn, w.db.rows)
    requires Unseats(w.ownerIn, w.db.rows, q.For(src), w.Automates(src), u)
    ensures !Seated(w.ownerIn, now)
  {
    var rows, c := w.db.rows, q.For(src);
    var x :| x in Below(rows, {u.before.id}) && x !in Ids(Befores(c.updates)) && rows[x].typ == PTR && !SeatOf(w.ownerIn, u.after, rows[x]);
    UnseatedIsAuthored(w, q, src, u, x);
    BelowUnmovedStays(w, policy, q, src, next, u, x);
    UpdateLeft(w, policy, q, src, next, mid, now, u);
    UnnamedIsSame(w, policy, q, src, next, mid, now, x);
    assert !SeatedAt(w.ownerIn, now, now[x]);
  }

  lemma UnseatedIsAuthored(w: World, q: Queue, src: ZoneId, u: Update, x: RecordId)
    requires Commanded(w.db, q, src) && Seated(w.ownerIn, w.db.rows) && u in q.For(src).updates
    requires x in Below(w.db.rows, {u.before.id}) && w.db.rows[x].typ == PTR
    ensures u.before.managedBy.None?
  {
    var rows, c := w.db.rows, q.For(src);
    Queued(rows, q, src);
    LeavingIs(c, u.before);
    LeavingHeld(rows, src, c, u.before);
    assert SeatedAt(w.ownerIn, rows, rows[x]);
  }

  /** A command keeps every generated entry at its record's address if and only if it
      leaves none behind. */
  lemma SeatedIff(w: World, policy: Policy, q: Queue, src: ZoneId, next: Queue, now: Db)
    requires Expanding(w, policy, q, src, next) && Seated(w.ownerIn, w.db.rows) && WriteQueue(w.db, next) == Ok(now)
    ensures Seated(w.ownerIn, now.rows) <==> UnseatsNone(w.ownerIn, w.db.rows, q.For(src), w.Automates(src))
  {
    var mid := ExpandingLeaves(w, policy, q, src, next, now);
    if UnseatsNone(w.ownerIn, w.db.rows, q.For(src), w.Automates(src)) {
      forall id | id in now.rows && now.rows[id].typ == PTR && now.rows[id].managedBy.Some?
        ensures SeatedAt(w.ownerIn, now.rows, now.rows[id])
      {
        if id in mid {
          StaysSeated(w, policy, q, src, next, mid, now.rows, id);
        } else {
          NewIsAdded(w, next, mid, now.rows, id);
          AddedSeated(w, policy, q, src, next, mid, now.rows, now.rows[id]);
        }
      }
    } else {
      var u :| u in q.For(src).updates && Unseats(w.ownerIn, w.db.rows, q.For(src), w.Automates(src), u);
      UnseatedIsNot(w, policy, q, src, next, mid, now.rows, u);
    }
  }

  // ------------------------------------------------------ and what a pass leaves so

  lemma PassSeated(w: World, policy: Policy, sources: seq<Record>, first: RecordId, q: Queue, mint: RecordId, now: Db)
    requires Integrity(w.db) && Sources(w.db.rows, sources) && WholePass(w, policy, sources, first, q, mint) && Seated(w.ownerIn, w.db.rows)
    requires WriteQueue(w.db, q) == Ok(now)
    ensures Seated(w.ownerIn, now.rows)
  {
    var rows, gone := w.db.rows, Overtaken(w, sources, |sources|);
    PassCarried(w, policy, sources, first, q, mint);
    GoneClosed(w, sources, |sources|);
    forall id | id in now.rows && now.rows[id].typ == PTR && now.rows[id].managedBy.Some?
      ensures SeatedAt(w.ownerIn, now.rows, now.rows[id])
    {
      if id in rows - gone {
        assert id !in Below(rows, gone);
        assert rows[id].managedBy.value in rows - gone;
      } else {
        PassAddedSeated(w, policy, sources, first, q, mint, now.rows, now.rows[id]);
      }
    }
  }

  lemma PassAddedSeated(w: World, policy: Policy, sources: seq<Record>, first: RecordId, q: Queue, mint: RecordId, now: Rows, r: Record)
    requires Sources(w.db.rows, sources) && WholePass(w, policy, sources, first, q, mint)
    requires After(w.db.rows, Overtaken(w, sources, |sources|), q, now) && Adds(q, r) && r.typ == PTR && r.managedBy.Some?
    ensures SeatedAt(w.ownerIn, now, r)
  {
    assert Expected(w, policy, sources, |sources|, q, r);
    var k :| 0 <= k < |sources| && Earns(w, policy, sources, k, r);
    assert sources[k] in sources;
    GoneStored(w, sources, |sources|);
    assert sources[k].id in w.db.rows - Overtaken(w, sources, |sources|);
  }
}
