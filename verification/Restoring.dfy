/** A rollback carried out: from the history of a zone to what it serves afterwards. */
module Restoring {
  import opened Dns
  import opened Journal
  import opened Changes
  import opened Ordering
  import opened Store
  import opened Write
  import opened View
  import opened Carry
  import opened Batch
  import opened History
  import opened Upkeep
  import opened Runs
  import opened Queues
  import opened Reverse
  import opened Generation
  import opened Expansion
  import Rollback

  // ------------------------------------------------------- the zone as it stands

  ghost function RowAt(rows: Rows, z: ZoneId, k: Key): Record
    requires k in KeysIn(rows, z)
  {
    var id :| id in rows && rows[id].zone == z && KeyOf(rows[id]) == k;
    rows[id]
  }

  /** The zone's rows by what makes them that record. */
  ghost function HeldIn(rows: Rows, z: ZoneId): Rollback.Held
    requires RowsOk(rows)
  {
    map k | k in KeysIn(rows, z) :: RowAt(rows, z, k)
  }

  lemma HeldIs(rows: Rows, z: ZoneId, id: RecordId)
    requires RowsOk(rows) && UniqueKeys(rows) && id in rows && rows[id].zone == z
    ensures KeyOf(rows[id]) in HeldIn(rows, z) && HeldIn(rows, z)[KeyOf(rows[id])] == rows[id]
  {
    var k := KeyOf(rows[id]);
    assert k in KeysIn(rows, z);
    var other :| other in rows && rows[other].zone == z && KeyOf(rows[other]) == k && RowAt(rows, z, k) == rows[other];
  }

  lemma HeldIsRow(rows: Rows, z: ZoneId, k: Key)
    requires RowsOk(rows) && k in HeldIn(rows, z)
    ensures var r := HeldIn(rows, z)[k]; r.id in rows && rows[r.id] == r && r.zone == z && KeyOf(r) == k
  {
  }

  lemma HeldServes(rows: Rows, z: ZoneId)
    requires RowsOk(rows) && UniqueKeys(rows)
    ensures Rollback.Content(HeldIn(rows, z)) == Served(rows, z)
  {
    forall k | k in KeysIn(rows, z)
      ensures RowAt(rows, z, k).ttl == TtlAt(rows, z, k)
    {
      var id := ServedBy(rows, z, k);
      ServedAt(rows, z, id);
    }
  }

  /** A lawful store is one a rollback can work from. */
  lemma LawfulHistory(db: Db, z: ZoneId)
    requires Lawful(db) && z in db.zones
    ensures Rollback.HistoryOf(Of(db.commits, z), db.zones[z], HeldIn(db.rows, z))
  {
    HeldServes(db.rows, z);
    assert LawAt(db, z);
  }

  // -------------------------------------------------- what undoing queues is fit

  /** What a rollback works out for a zone: the commits after the first ones undone. */
  ghost predicate Undone(db: Db, z: ZoneId, kept: nat, first: RecordId, mint: RecordId, ch: Changes)
    requires RowsOk(db.rows)
  {
    z in db.zones && Rollback.UndoesAfter(Of(db.commits, z), kept, db.zones[z], HeldIn(db.rows, z), first, mint, ch)
  }

  lemma UndoneLeaves(rows: Rows, z: ZoneId, first: RecordId, mint: RecordId, ch: Changes, i: nat)
    requires RowsOk(rows) && Rollback.Handles(z, HeldIn(rows, z), first, mint, ch) && i < |Leaving(ch)|
    ensures var r := Leaving(ch)[i]; r.id in rows && rows[r.id] == r && r.zone == z && r.managedBy.None?
  {
    var n := |ch.deletes|;
    var r := Leaving(ch)[i];
    assert Rollback.Own(HeldIn(rows, z), r) by {
      if i >= n { assert Rollback.Own(HeldIn(rows, z), ch.updates[i - n].before); }
    }
    HeldIsRow(rows, z, KeyOf(r));
  }

  lemma UndoneRows(db: Db, z: ZoneId, kept: nat, first: RecordId, mint: RecordId, ch: Changes)
    requires Integrity(db) && Undone(db, z, kept, first, mint, ch)
    ensures RowsOf(db.rows, z, Leaving(ch))
  {
    forall i | 0 <= i < |Leaving(ch)|
      ensures Leaving(ch)[i].id in db.rows && db.rows[Leaving(ch)[i].id] == Leaving(ch)[i] && Leaving(ch)[i].zone == z
    {
      UndoneLeaves(db.rows, z, first, mint, ch, i);
    }
    assert DistinctKeys(Leaving(ch));
    forall i, j | 0 <= i < j < |Leaving(ch)|
      ensures Leaving(ch)[i].id != Leaving(ch)[j].id
    {
      assert KeyOf(Leaving(ch)[i]) != KeyOf(Leaving(ch)[j]);
    }
  }

  lemma UndoneUpdate(rows: Rows, z: ZoneId, first: RecordId, mint: RecordId, ch: Changes, i: nat)
    requires RowsOk(rows) && Rollback.Handles(z, HeldIn(rows, z), first, mint, ch) && i < |ch.updates|
    ensures InPlace(z, ch.updates[i]) && EditsOrDetaches(ch.updates[i]) && ch.updates[i].before.managedBy.None?
    ensures ch.updates[i].before.id in rows && rows[ch.updates[i].before.id] == ch.updates[i].before
  {
    UndoneLeaves(rows, z, first, mint, ch, |ch.deletes| + i);
    assert Leaving(ch)[|ch.deletes| + i] == ch.updates[i].before;
    assert Rollback.Retimed(ch.updates[i]);
  }

  /** Undoing updates nothing but lifetimes of rows as they stand. */
  lemma UndoneRetimes(rows: Rows, z: ZoneId, first: RecordId, mint: RecordId, ch: Changes)
    requires RowsOk(rows) && Rollback.Handles(z, HeldIn(rows, z), first, mint, ch)
    ensures forall u :: u in ch.updates ==>
              u.before.id in rows && rows[u.before.id] == u.before && u.after == u.before.(ttl := u.after.ttl)
  {
    forall u | u in ch.updates
      ensures u.before.id in rows && rows[u.before.id] == u.before && u.after == u.before.(ttl := u.after.ttl)
    {
      var i :| 0 <= i < |ch.updates| && ch.updates[i] == u;
      UndoneUpdate(rows, z, first, mint, ch, i);
      assert Rollback.Retimed(ch.updates[i]);
    }
  }

  lemma UndoneQueued(db: Db, z: ZoneId, kept: nat, first: RecordId, mint: RecordId, ch: Changes)
    requires Integrity(db) && Undone(db, z, kept, first, mint, ch)
    ensures WellQueuedIn(db.rows, z, ch)
    ensures forall u :: u in ch.updates ==> EditsOrDetaches(u)
    ensures forall d :: d in ch.deletes ==> d.managedBy.None?
  {
    UndoneRows(db, z, kept, first, mint, ch);
    UndoneInserts(db, z, kept, first, mint, ch);
    forall u | u in ch.updates
      ensures InPlace(z, u) && EditsOrDetaches(u)
    {
      var i :| 0 <= i < |ch.updates| && ch.updates[i] == u;
      UndoneUpdate(db.rows, z, first, mint, ch, i);
    }
    forall d | d in ch.deletes
      ensures d.managedBy.None?
    {
      var i :| 0 <= i < |ch.deletes| && ch.deletes[i] == d;
      UndoneLeaves(db.rows, z, first, mint, ch, i);
      assert Leaving(ch)[i] == d;
    }
  }

  /** Undoing comes to what a command on the zone may come to. */
  lemma UndoneCommanded(db: Db, z: ZoneId, kept: nat, first: RecordId, mint: RecordId, ch: Changes)
    requires Integrity(db) && Undone(db, z, kept, first, mint, ch)
    ensures Commanded(db, Put(NO_QUEUE, db.zones[z], ch), z)
  {
    UndoneQueued(db, z, kept, first, mint, ch);
    UndoneInserts(db, z, kept, first, mint, ch);
    OneZoneCommanded(db, db.zones[z], ch);
  }

  lemma UndoneInserts(db: Db, z: ZoneId, kept: nat, first: RecordId, mint: RecordId, ch: Changes)
    requires Integrity(db) && Undone(db, z, kept, first, mint, ch)
    ensures forall r :: r in ch.inserts ==> r.zone == z && r.managedBy.None? && r.managedKind.None? && first <= r.id < mint
  {
    forall r | r in ch.inserts
      ensures r.zone == z && r.managedBy.None? && r.managedKind.None? && first <= r.id < mint
    {
      var i :| 0 <= i < |ch.inserts| && ch.inserts[i] == r;
      assert Rollback.PutBack(z, r);
    }
  }

  /** It names no record that its own removals take. */
  lemma UndoneNoClash(w: World, z: ZoneId, kept: nat, first: RecordId, mint: RecordId, ch: Changes)
    requires Integrity(w.db) && Undone(w.db, z, kept, first, mint, ch)
    ensures NoClash(w, z, ch)
  {
    var tops := Tops(w, z, ch);
    AddedHangs(w.db.rows, tops);
    forall u | u in ch.updates
      ensures u.before.id !in Cascade(w.db.rows, tops) - tops
    {
      var i :| 0 <= i < |ch.updates| && ch.updates[i] == u;
      UndoneUpdate(w.db.rows, z, first, mint, ch, i);
    }
  }

  // ----------------------------------------------------- and carried out restores

  /** At every key whose record is generated neither before nor after, the zone serves
      what it served then. */
  ghost predicate ServesAsThen(was: Rows, now: Rows, z: ZoneId, target: State)
    requires RowsOk(was) && RowsOk(now)
  {
    forall k :: !Rollback.Generated(HeldIn(was, z), k) && !Rollback.Generated(HeldIn(now, z), k) ==>
      SameAt(State(Served(now, z), None), target, k)
  }

  /** A rollback and its expansion, on the store it was worked out for. */
  ghost predicate RollingBack(w: World, policy: Policy, z: ZoneId, kept: nat, first: RecordId, mint: RecordId, ch: Changes, next: Queue)
  {
    && Lawful(w.db) && Undone(w.db, z, kept, first, mint, ch)
    && Expanded(w, policy, Put(NO_QUEUE, w.db.zones[z], ch), z, next)
  }

  /** What expansion adds to the zone is generated. */
  lemma ExtraIsGenerated(w: World, policy: Policy, q: Queue, z: ZoneId, next: Queue, r: Record)
    requires Expanded(w, policy, q, z, next) && q.byZone.Keys == {z}
    ensures r in Arriving(q.For(z)) ==> r in Arriving(next.For(z))
    ensures r in Arriving(next.For(z)) ==> r in Arriving(q.For(z)) || r.managedBy.Some?
  {
    var ch, c := q.For(z), next.For(z);
    assert KeepsIn(ch, c);
    ArrivingIs(ch, r);
    ArrivingIs(c, r);
    if r in c.inserts && r !in ch.inserts {
      ExtraInsert(w, policy, q, z, next, r);
    }
  }

  lemma ExtraInsert(w: World, policy: Policy, q: Queue, z: ZoneId, next: Queue, r: Record)
    requires Expanded(w, policy, q, z, next) && q.byZone.Keys == {z} && r in next.For(z).inserts && r !in q.For(z).inserts
    ensures r.managedBy.Some?
  {
    assert z in next.byZone;
    assert Adds(next, r);
    assert !Adds(q, r);
    var s :| s in Givers(w, z, q.For(z)) && Implied(w, next, s, r);
  }

  /** So is what it takes from the zone. */
  lemma ExtraWasGenerated(w: World, policy: Policy, z: ZoneId, kept: nat, first: RecordId, mint: RecordId, ch: Changes, next: Queue, r: Record)
    requires RollingBack(w, policy, z, kept, first, mint, ch, next)
    ensures r in Leaving(ch) ==> r in Leaving(next.For(z))
    ensures r in Leaving(next.For(z)) ==> r in Leaving(ch) || r.managedBy.Some?
    ensures r in Leaving(next.For(z)) ==> r.id in w.db.rows && w.db.rows[r.id] == r && r.zone == z
  {
    var rows, q, c := w.db.rows, Put(NO_QUEUE, w.db.zones[z], ch), next.For(z);
    PutProper(NO_QUEUE, w.db.zones[z], ch);
    assert KeepsIn(q.For(z), c);
    LeavingIs(ch, r);
    LeavingIs(c, r);
    Queued(rows, next, z);
    if r in Leaving(c) { LeavingHeld(rows, z, c, r); }
    DeletesInside(w, policy, z, kept, first, mint, ch, next, r);
  }

  lemma DeletesInside(w: World, policy: Policy, z: ZoneId, kept: nat, first: RecordId, mint: RecordId, ch: Changes, next: Queue, r: Record)
    requires RollingBack(w, policy, z, kept, first, mint, ch, next)
    ensures r in ch.deletes ==> r in next.For(z).deletes
    ensures r in next.For(z).deletes ==> r in ch.deletes || r.managedBy.Some?
  {
    var rows, c := w.db.rows, next.For(z);
    UndoneQueued(w.db, z, kept, first, mint, ch);
    AddedHangs(rows, Tops(w, z, ch));
    IdsOf(AllDeletes(next), r.id);
    IdsOf(ch.deletes, r.id);
    DeleteIsOwn(rows, next, r);
    LeavingIs(ch, r);
    if r in ch.deletes {
      LeavingHeld(rows, z, ch, r);
      var d :| d in AllDeletes(next) && d.id == r.id;
      DeleteIsOwn(rows, next, d);
    }
    if r in c.deletes {
      Queued(rows, next, z);
      LeavingIs(c, r);
      LeavingHeld(rows, z, c, r);
      if r.id in Ids(ch.deletes) {
        var d :| d in ch.deletes && d.id == r.id;
        LeavingIs(ch, d);
        LeavingHeld(rows, z, ch, d);
      }
    }
  }

  lemma KeyAmong(rs: seq<Record>, k: Key)
    ensures k in Keys(rs) <==> exists r :: r in rs && KeyOf(r) == k
  {
    if r :| r in rs && KeyOf(r) == k {
      var i :| 0 <= i < |rs| && rs[i] == r;
    }
  }

  /** Carried out, as far as the rows go. */
  ghost predicate RowsLeft(w: World, z: ZoneId, next: Queue, carried: Rows)
  {
    && RowsOk(carried) && UniqueKeys(carried)
    && Fits(Served(w.db.rows, z), next.For(z)) && Served(carried, z) == Outcome(Served(w.db.rows, z), next.For(z))
    && forall r :: r in Arriving(next.For(z)) ==> r.id in carried && carried[r.id] == r && r.zone == z
  }

  lemma OnePut(z: Zone, c: Changes)
    ensures Put(NO_QUEUE, z, c).byZone.Keys == {z.id} && Put(NO_QUEUE, z, c).For(z.id) == c
  {
  }

  lemma SameLeaving(w: World, policy: Policy, z: ZoneId, kept: nat, first: RecordId, mint: RecordId, ch: Changes, next: Queue, k: Key)
    requires RollingBack(w, policy, z, kept, first, mint, ch, next) && !Rollback.Generated(HeldIn(w.db.rows, z), k)
    ensures k in Keys(Leaving(ch)) <==> k in Keys(Leaving(next.For(z)))
  {
    var c := next.For(z);
    KeyAmong(Leaving(ch), k);
    KeyAmong(Leaving(c), k);
    forall r | KeyOf(r) == k
      ensures r in Leaving(ch) <==> r in Leaving(c)
    {
      ExtraWasGenerated(w, policy, z, kept, first, mint, ch, next, r);
      if r in Leaving(c) { HeldIs(w.db.rows, z, r.id); }
    }
  }

  lemma SameArriving(w: World, policy: Policy, q: Queue, z: ZoneId, next: Queue, carried: Rows, k: Key)
    requires Expanded(w, policy, q, z, next) && q.byZone.Keys == {z}
    requires RowsLeft(w, z, next, carried) && !Rollback.Generated(HeldIn(carried, z), k)
    ensures k in Keys(Arriving(q.For(z))) <==> k in Keys(Arriving(next.For(z)))
    ensures forall r :: r in Arriving(next.For(z)) && KeyOf(r) == k ==> r in Arriving(q.For(z))
  {
    var ch, c := q.For(z), next.For(z);
    KeyAmong(Arriving(ch), k);
    KeyAmong(Arriving(c), k);
    forall r | KeyOf(r) == k
      ensures r in Arriving(ch) <==> r in Arriving(c)
    {
      ExtraIsGenerated(w, policy, q, z, next, r);
      if r in Arriving(c) { HeldIs(carried, z, r.id); }
    }
  }

  /** Where nothing is generated, the expansion comes to what the rollback does. */
  lemma SameOutcome(w: World, policy: Policy, z: ZoneId, kept: nat, first: RecordId, mint: RecordId, ch: Changes, next: Queue, carried: Rows, k: Key)
    requires RollingBack(w, policy, z, kept, first, mint, ch, next) && RowsLeft(w, z, next, carried)
    requires !Rollback.Generated(HeldIn(w.db.rows, z), k) && !Rollback.Generated(HeldIn(carried, z), k)
    requires Fits(Served(w.db.rows, z), ch)
    ensures SameAt(State(Served(carried, z), None), State(Outcome(Served(w.db.rows, z), ch), None), k)
  {
    var q := Put(NO_QUEUE, w.db.zones[z], ch);
    OnePut(w.db.zones[z], ch);
    SameLeaving(w, policy, z, kept, first, mint, ch, next, k);
    SameArriving(w, policy, q, z, next, carried, k);
    AgreeAt(Served(w.db.rows, z), ch, next.For(z), k);
  }

  lemma AgreeAt(content: map<Key, nat>, a: Changes, b: Changes, k: Key)
    requires Fits(content, a) && Fits(content, b)
    requires k in Keys(Leaving(a)) <==> k in Keys(Leaving(b))
    requires k in Keys(Arriving(a)) <==> k in Keys(Arriving(b))
    requires forall r :: r in Arriving(b) && KeyOf(r) == k ==> r in Arriving(a)
    ensures SameAt(State(Outcome(content, b), None), State(Outcome(content, a), None), k)
  {
    OutcomeAt(content, a, k);
    OutcomeAt(content, b, k);
    if k in Keys(Arriving(b)) {
      var i :| 0 <= i < |Arriving(b)| && KeyOf(Arriving(b)[i]) == k;
      var j :| 0 <= j < |Arriving(a)| && Arriving(a)[j] == Arriving(b)[i];
    }
  }

  lemma RolledBackRows(w: World, policy: Policy, z: ZoneId, kept: nat, first: RecordId, mint: RecordId, ch: Changes, next: Queue, carried: Rows)
    requires RollingBack(w, policy, z, kept, first, mint, ch, next) && RowsLeft(w, z, next, carried)
    requires 0 < kept <= |Of(w.db.commits, z)|
    ensures var target := Rollback.StateAt(Of(w.db.commits, z), kept - 1);
            target.Some? && ServesAsThen(w.db.rows, carried, z, target.value)
  {
    var rows, history, held := w.db.rows, Of(w.db.commits, z), HeldIn(w.db.rows, z);
    LawfulHistory(w.db, z);
    HeldServes(rows, z);
    Rollback.SplitHistory(history, kept - 1);
    var target := Rollback.StateAt(history, kept - 1).value;
    assert Rollback.Restores(target, held, ch);
    forall k | !Rollback.Generated(held, k) && !Rollback.Generated(HeldIn(carried, z), k)
      ensures SameAt(State(Served(carried, z), None), target, k)
    {
      SameOutcome(w, policy, z, kept, first, mint, ch, next, carried, k);
      assert SameAt(State(Outcome(Rollback.Content(held), ch), None), target, k);
    }
  }

  lemma RollbackLeaves(w: World, policy: Policy, z: ZoneId, kept: nat, first: RecordId, mint: RecordId, ch: Changes, next: Queue, carried: Db)
    requires RollingBack(w, policy, z, kept, first, mint, ch, next) && Known(w.db.rows, ch.deletes, w.Automates(z))
    requires WriteQueue(w.db, next) == Ok(carried)
    ensures RowsLeft(w, z, next, carried.rows)
  {
    var rows := w.db.rows;
    UndoneCommanded(w.db, z, kept, first, mint, ch);
    PutProper(NO_QUEUE, w.db.zones[z], ch);
    ExpandedClosedIff(w, policy, Put(NO_QUEUE, w.db.zones[z], ch), z, next);
    ClosedIffNoMore(rows, Ids(AllDeletes(next)));
    WriteCarries(w.db, next);
    WriteServes(w.db, next, z);
    var mid :| CarriedBy(rows, mid, carried.rows, next, Ids(AllDeletes(next)));
    forall r | r in Arriving(next.For(z))
      ensures r.id in carried.rows && carried.rows[r.id] == r && r.zone == z
    {
      ArrivingStands(rows, mid, carried.rows, next, Ids(AllDeletes(next)), z, r);
    }
  }

  /** What the zone's own commit makes of it: the next serial, and the start of
      authority the rollback restores. A zone it leaves alone keeps both. */
  lemma CarriedZone(db: Db, carried: Db, now: Db, p: Intent, b: Batch, z: ZoneId, id: CommitId)
    requires Working(db, b, p, z, id) && Wrote(db, carried, now, b)
    ensures now.rows == carried.rows && z in now.zones
    ensures now.zones[z].soa == if b.queue.For(z).Empty() then db.zones[z].soa
                                else SoaThen(db.zones[z], b.queue.For(z), Next(db.zones[z].soa.serial))
  {
    WriteCarries(db, b.queue);
    CommitsRecorded(carried, b, b.commits);
    if b.queue.For(z).Empty() {
      assert Of(b.commits, z) == [];
    } else {
      var commit := CommitFor(p, b.queue.zones[z], b.queue.For(z), id);
      assert Of(b.commits, z) == [commit];
      assert ZoneThrough(db.zones[z], b, [commit]) == ZoneAfter(db.zones[z], b, commit) by {
        assert [commit][1..] == [];
      }
    }
  }

  /** A rollback to a state of the zone's history, expanded and accepted, serves what
      the zone served then and restores the start of authority it had then; what it
      changes moves the zone on to its next serial. */
  lemma RolledBack(w: World, policy: Policy, p: Intent, z: ZoneId, kept: nat, first: RecordId, mint: RecordId, ch: Changes, next: Queue, now: Db)
    requires RollingBack(w, policy, z, kept, first, mint, ch, next) && Known(w.db.rows, ch.deletes, w.Automates(z)) && p.kind != ZoneCreate
    requires WriteBatch(w.db, EditBatch(p, next)) == Ok(now) && 0 < kept <= |Of(w.db.commits, z)|
    ensures RowsOk(now.rows) && z in now.zones
    ensures var target := Rollback.StateAt(Of(w.db.commits, z), kept - 1);
            && target.Some? && ServesAsThen(w.db.rows, now.rows, z, target.value)
            && (target.value.soa.Some? ==> now.zones[z].soa.(serial := 0) == target.value.soa.value)
    ensures now.zones[z].soa.serial ==
            if next.For(z).Empty() then w.db.zones[z].soa.serial else Next(w.db.zones[z].soa.serial)
  {
    EditParts(w.db, p, next);
    var carried := WriteQueue(w.db, next).value;
    RollbackLeaves(w, policy, z, kept, first, mint, ch, next, carried);
    RolledBackRows(w, policy, z, kept, first, mint, ch, next, carried.rows);
    var id := EditWorks(w.db, p, next, z);
    CarriedZone(w.db, carried, now, p, EditBatch(p, next), z, id);
    SoaRestored(w, policy, z, kept, first, mint, ch, next);
  }

  lemma SoaRestored(w: World, policy: Policy, z: ZoneId, kept: nat, first: RecordId, mint: RecordId, ch: Changes, next: Queue)
    requires RollingBack(w, policy, z, kept, first, mint, ch, next) && 0 < kept <= |Of(w.db.commits, z)|
    ensures next.For(z).soa == ch.soa
    ensures var target := Rollback.StateAt(Of(w.db.commits, z), kept - 1);
            target.Some? && (target.value.soa.Some? ==> Rollback.SoaAfter(w.db.zones[z], ch).(serial := 0) == target.value.soa.value)
  {
    PutProper(NO_QUEUE, w.db.zones[z], ch);
    assert KeepsIn(Put(NO_QUEUE, w.db.zones[z], ch).For(z), next.For(z));
    LawfulHistory(w.db, z);
    Rollback.SplitHistory(Of(w.db.commits, z), kept - 1);
  }

  // --------------------------------------------------------------- from end to end

  /** A planner on a lawful store, with a zone of it as it stands. */
  ghost predicate Ready(w: World, z: Zone, mint: RecordId)
  {
    w.Valid() && Lawful(w.db) && w.Holds(z) && forall id :: id in w.db.rows ==> id < mint
  }

  /** Plans a rollback: the difference to the target, and the reverse entries it
      implies. */
  method PlanRollback(p: Planner, policy: Policy, z: Zone, held: Rollback.Held, pages: seq<seq<Commit>>, target: Serial, parses: Key -> bool)
    returns (err: Option<Refusal>, ghost kept: nat, ghost mint: RecordId, ghost ch: Changes)
    requires Ready(p.w, z, p.mint) && p.q == NO_QUEUE
    requires held == HeldIn(p.w.db.rows, z.id) && Rollback.Lists(pages, Of(p.w.db.commits, z.id))
    modifies p
    ensures err.None? && target == z.soa.serial ==> p.q == NO_QUEUE
    ensures err.None? && target != z.soa.serial ==>
              && RollingBack(p.w, policy, z.id, kept, old(p.mint), mint, ch, p.q)
              && (kept > 0 ==> Of(p.w.db.commits, z.id)[kept - 1].serialTo == target)
              && (Rollback.WasAt(Of(p.w.db.commits, z.id), target) ==> kept > 0)
    ensures err.None? ==> AllInStep(p.q)
  {
    LawfulHistory(p.w.db, z.id);
    var r, next;
    r, next, kept := Rollback.RollbackIn(z, held, pages, target, parses, p.mint, Of(p.w.db.commits, z.id));
    mint, ch := next, NO_CHANGES;
    if r.Err? { return Some(r.reason), kept, mint, ch; }
    if target == z.soa.serial { return None, kept, mint, ch; }
    ch := r.value;
    err := ExpandUndone(p, policy, z, r.value, next, kept);
  }

  method ExpandUndone(p: Planner, policy: Policy, z: Zone, ch: Changes, mint: RecordId, ghost kept: nat)
    returns (err: Option<Refusal>)
    requires Ready(p.w, z, p.mint) && p.q == NO_QUEUE && Undone(p.w.db, z.id, kept, p.mint, mint, ch) && InStep(ch)
    modifies p
    ensures err.None? ==> RollingBack(p.w, policy, z.id, kept, old(p.mint), mint, ch, p.q) && AllInStep(p.q)
  {
    UndoneCommanded(p.w.db, z.id, kept, p.mint, mint, ch);
    UndoneNoClash(p.w, z.id, kept, p.mint, mint, ch);
    UndoneUnused(p.w.db, z.id, kept, p.mint, mint, ch);
    PutProper(NO_QUEUE, z, ch);
    OneInStep(z, ch);
    p.q, p.mint := Put(NO_QUEUE, z, ch), mint;
    err := p.Expand(policy, z.id);
  }

  lemma UndoneUnused(db: Db, z: ZoneId, kept: nat, first: RecordId, mint: RecordId, ch: Changes)
    requires Integrity(db) && Undone(db, z, kept, first, mint, ch) && forall id :: id in db.rows ==> id < first
    ensures Unused(db.rows, Put(NO_QUEUE, db.zones[z], ch), mint)
  {
    UndoneInserts(db, z, kept, first, mint, ch);
    PutProper(NO_QUEUE, db.zones[z], ch);
  }
}
