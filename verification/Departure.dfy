/** Deleting a zone: what its rows generated elsewhere goes with them, one commit
    for each zone that loses something. */
module Departure {
  import opened Dns
  import opened Journal
  import opened Changes
  import opened Ordering
  import opened Store
  import opened Write
  import opened View
  import opened Carry
  import opened Batch
  import opened History
  import opened Upkeep
  import opened Runs
  import opened Queues

  /** The rows of other zones that were generated from rows of this one. */
  function Hanging(rows: Rows, f: ZoneId): set<RecordId>
  {
    set id | id in rows && rows[id].zone != f && id in Below(rows, InZone(rows, f))
  }

  /** Those rows as the store streams them, in whatever order. */
  ghost predicate Streams(rows: Rows, f: ZoneId, listing: seq<Record>)
  {
    UniqueIds(listing) && Present(rows, listing) && Ids(listing) == Hanging(rows, f)
  }

  ghost predicate OnlyRemoves(q: Queue)
  {
    forall z :: z in q.byZone ==> q.byZone[z].updates == [] && q.byZone[z].inserts == [] && q.byZone[z].soa.None?
  }

  ghost predicate DepartureQueued(db: Db, f: ZoneId, q: Queue)
  {
    WellPlanned(db, q) && f !in q.byZone && OnlyRemoves(q) && Ids(AllDeletes(q)) == Hanging(db.rows, f)
  }

  /** Part way through the stream. */
  ghost predicate Departing(db: Db, f: ZoneId, listing: seq<Record>, i: nat, q: Queue)
    requires i <= |listing|
  {
    && WellPlanned(db, q) && f !in q.byZone && OnlyRemoves(q)
    && forall r :: Removes(q, r) <==> r in listing[..i]
  }

  lemma StreamedElsewhere(db: Db, f: ZoneId, listing: seq<Record>, i: nat)
    requires Integrity(db) && Streams(db.rows, f, listing) && i < |listing|
    ensures listing[i].zone != f && listing[i].zone in db.zones
  {
    assert listing[i].id in Ids(listing);
  }

  lemma NotYetLeaving(db: Db, f: ZoneId, listing: seq<Record>, i: nat, q: Queue)
    requires Integrity(db) && Streams(db.rows, f, listing) && i < |listing| && Departing(db, f, listing, i, q)
    ensures listing[i].id !in Ids(Leaving(q.For(listing[i].zone)))
  {
    var r, c := listing[i], q.For(listing[i].zone);
    IdsOf(Leaving(c), r.id);
    if s :| s in Leaving(c) && s.id == r.id {
      NotYetRemoved(db, f, listing, i, q, s);
    }
  }

  lemma RemoveOne(db: Db, f: ZoneId, listing: seq<Record>, i: nat, q: Queue, z: Zone)
    requires Integrity(db) && Streams(db.rows, f, listing) && i < |listing| && Departing(db, f, listing, i, q)
    requires z.id == listing[i].zone && z.id in db.zones && z == db.zones[z.id]
    ensures Departing(db, f, listing, i + 1, Put(q, z, q.For(z.id).Remove(listing[i])))
  {
    RemoveOnePlanned(db, f, listing, i, q, z);
    RemoveOneStreams(db, f, listing, i, q, z);
  }

  lemma RemoveOnePlanned(db: Db, f: ZoneId, listing: seq<Record>, i: nat, q: Queue, z: Zone)
    requires Integrity(db) && Streams(db.rows, f, listing) && i < |listing| && Departing(db, f, listing, i, q)
    requires z.id == listing[i].zone && z.id in db.zones && z == db.zones[z.id]
    ensures var next := Put(q, z, q.For(z.id).Remove(listing[i])); WellPlanned(db, next) && f !in next.byZone && OnlyRemoves(next)
  {
    var r, c := listing[i], q.For(z.id);
    StreamedElsewhere(db, f, listing, i);
    Queued(db.rows, q, z.id);
    NotYetLeaving(db, f, listing, i, q);
    assert r.id in Ids(listing);
    RemoveWellQueued(db.rows, z.id, c, r);
    PutWellPlanned(db, q, z, c.Remove(r));
    PutOnlyRemoves(q, z, c.Remove(r));
  }

  lemma RemoveOneStreams(db: Db, f: ZoneId, listing: seq<Record>, i: nat, q: Queue, z: Zone)
    requires i < |listing| && q.Proper() && forall s :: Removes(q, s) <==> s in listing[..i]
    ensures forall s :: Removes(Put(q, z, q.For(z.id).Remove(listing[i])), s) <==> s in listing[..i + 1]
  {
    var r, c := listing[i], q.For(z.id);
    assert listing[..i + 1] == listing[..i] + [r];
    forall s
      ensures Removes(Put(q, z, c.Remove(r)), s) <==> s in listing[..i + 1]
    {
      RemovesPut(q, z, c, r, s);
    }
  }

  lemma PutOnlyRemoves(q: Queue, z: Zone, c: Changes)
    requires q.Proper() && OnlyRemoves(q) && c.updates == [] && c.inserts == [] && c.soa.None?
    ensures OnlyRemoves(Put(q, z, c)) && Put(q, z, c).byZone.Keys == q.byZone.Keys + {z.id}
  {
    PutProper(q, z, c);
    forall y | y in Put(q, z, c).byZone
      ensures Put(q, z, c).byZone[y].updates == [] && Put(q, z, c).byZone[y].inserts == [] && Put(q, z, c).byZone[y].soa.None?
    {
      if y != z.id { assert Put(q, z, c).For(y) == q.For(y); }
    }
  }

  /** What is queued so far came earlier in the stream. */
  lemma NotYetRemoved(db: Db, f: ZoneId, listing: seq<Record>, i: nat, q: Queue, s: Record)
    requires Integrity(db) && Streams(db.rows, f, listing) && i < |listing| && Departing(db, f, listing, i, q)
    requires s in Leaving(q.For(listing[i].zone))
    ensures s.id != listing[i].id
  {
    var z := listing[i].zone;
    LeavingIs(q.For(z), s);
    assert s in q.For(z).deletes;
    assert Removes(q, s);
    var j :| 0 <= j < i && listing[j] == s;
  }

  method PlanDeparture(db: Db, f: ZoneId, listing: seq<Record>) returns (q: Queue)
    requires Integrity(db) && Streams(db.rows, f, listing)
    ensures DepartureQueued(db, f, q) && AllInStep(q)
  {
    q := NO_QUEUE;
    for i := 0 to |listing|
      invariant Departing(db, f, listing, i, q) && AllInStep(q)
    {
      StreamedElsewhere(db, f, listing, i);
      var r := listing[i];
      RemoveOne(db, f, listing, i, q, db.zones[r.zone]);
      RemoveInStep(q.For(r.zone), r);
      PutInStep(q, db.zones[r.zone], q.For(r.zone).Remove(r));
      q := Put(q, db.zones[r.zone], q.For(r.zone).Remove(r));
    }
    assert listing[..|listing|] == listing;
    forall id
      ensures id in Ids(AllDeletes(q)) <==> id in Ids(listing)
    {
      IdsOf(AllDeletes(q), id);
      IdsOf(listing, id);
      forall r
        ensures r in AllDeletes(q) <==> r in listing
      {
        RemovesIs(q, r);
      }
    }
  }

  // -------------------------------------------------------------- the batch

  function DeleteCommit(m: Meta, z: Zone, id: CommitId): Commit
  {
    Commit(id, z.id, z.name, z.soa.serial, Next(z.soa.serial), ZoneDelete, m.source, m.actor, m.comment, None, [])
  }

  /** The zone's own commit leads; what follows is its consequences elsewhere. */
  function DeleteBatch(p: Intent, z: Zone, q: Queue, id: CommitId): Batch
    requires q.Proper()
  {
    Batch([DeleteOp(z.id)], q, [DeleteCommit(p.meta, z, id)] + Planned(p, q, |q.order|))
  }

  lemma DeleteParts(db: Db, b: Batch, f: ZoneId) returns (carried: Db, recorded: Db)
    requires b.ops == [DeleteOp(f)] && WriteBatch(db, b).Ok?
    ensures Wrote(db, carried, recorded, b) && f in recorded.zones && DeleteZone(recorded, f) == WriteBatch(db, b)
  {
    assert WriteOps(db, b.ops) == WriteOps(db, b.ops[1..]);
    carried := WriteQueue(db, b.queue).value;
    recorded := WriteCommits(carried, b, b.commits).value;
    assert WriteDrops(recorded, b.ops) == match DeleteZone(recorded, f) { case Err(e) => Err(e) case Ok(n) => WriteDrops(n, b.ops[1..]) };
  }

  /** No row outside the zone hangs off a row outside it that the zone generated. */
  ghost predicate Shallow(rows: Rows, f: ZoneId)
  {
    forall id :: id in rows && rows[id].zone != f && rows[id].managedBy.Some? ==>
      rows[id].managedBy.value !in Hanging(rows, f)
  }

  lemma ShallowIffCascade(rows: Rows, f: ZoneId)
    ensures Shallow(rows, f) <==> Cascade(rows, Hanging(rows, f)) <= Hanging(rows, f) + InZone(rows, f)
  {
    var hang, own := Hanging(rows, f), InZone(rows, f);
    if Shallow(rows, f) {
      forall id | id in Below(rows, hang + own)
        ensures id in hang + own
      {
        if rows[id].zone != f {
          assert rows[id].managedBy.value in own;
          assert id in Below(rows, own);
        }
      }
      CascadeIsLeast(rows, hang, hang + own);
    }
    if Cascade(rows, hang) <= hang + own {
      forall id | id in rows && rows[id].zone != f && rows[id].managedBy.Some?
        ensures rows[id].managedBy.value !in hang
      {
        assert rows[id].managedBy.value in hang ==> id in Below(rows, Cascade(rows, hang));
      }
    }
  }

  lemma CarriedNothingElse(was: Rows, mid: Rows, now: Rows, q: Queue, gone: set<RecordId>)
    requires CarriedBy(was, mid, now, q, gone) && AllUpdates(q) == [] && AllInserts(q) == []
    ensures now == was - gone
  {
    assert Ids(AllInserts(q)) == {};
    assert forall id :: id in was - gone ==> !Addressed(AllUpdates(q), id);
    assert mid == was - gone;
  }

  lemma OnlyRemovesWrites(db: Db, q: Queue, carried: Db)
    requires Integrity(db) && WellQueued(db.rows, q) && OnlyRemoves(q) && WriteQueue(db, q) == Ok(carried)
    ensures carried.rows == db.rows - Gone(db, q)
  {
    WriteCarries(db, q);
    NothingElse(db.rows, q);
    var mid :| CarriedBy(db.rows, mid, carried.rows, q, Gone(db, q));
    CarriedNothingElse(db.rows, mid, carried.rows, q, Gone(db, q));
  }

  lemma NothingElse(rows: Rows, q: Queue)
    requires WellQueued(rows, q) && OnlyRemoves(q)
    ensures AllUpdates(q) == [] && AllInserts(q) == []
  {
    if AllUpdates(q) != [] { UpdateIsOwn(rows, q, AllUpdates(q)[0]); }
    if AllInserts(q) != [] { InsertIsOwn(rows, q, AllInserts(q)[0]); }
  }

  /** Once what it generated elsewhere is gone, the zone takes only its own rows. */
  lemma ZoneGoesAlone(db: Db, f: ZoneId, q: Queue, carried: Db)
    requires Integrity(db) && DepartureQueued(db, f, q) && WriteQueue(db, q) == Ok(carried)
    ensures Cascade(carried.rows, InZone(carried.rows, f)) == InZone(carried.rows, f)
  {
    OnlyRemovesWrites(db, q, carried);
    var own := InZone(carried.rows, f);
    forall id | id in Below(carried.rows, own)
      ensures id in own
    {
      assert id in Below(db.rows, InZone(db.rows, f));
      assert id !in Hanging(db.rows, f);
    }
    ClosedIffNoMore(carried.rows, own);
  }

  lemma ServedWithout(rows: Rows, gone: set<RecordId>, z: ZoneId)
    requires UniqueKeys(rows) && forall id :: id in gone && id in rows ==> rows[id].zone != z
    ensures Served(rows - gone, z) == Served(rows, z)
  {
    var less := rows - gone;
    forall k
      ensures k in Served(less, z) <==> k in Served(rows, z)
      ensures k in Served(rows, z) ==> Served(less, z)[k] == Served(rows, z)[k]
    {
      if k in Served(less, z) {
        var id := ServedBy(less, z, k);
        ServedAt(rows, z, id);
      }
      if k in Served(rows, z) {
        var id := ServedBy(rows, z, k);
        assert id in less && less[id] == rows[id];
        ServedAt(rows, z, id);
        ServedAt(less, z, id);
      }
    }
    assert Served(less, z).Keys == Served(rows, z).Keys;
  }

  lemma DeleteWorks(db: Db, p: Intent, f: ZoneId, q: Queue, id: CommitId, z: ZoneId) returns (cid: CommitId)
    requires Lawful(db) && f in db.zones && DepartureQueued(db, f, q) && p.kind == Edit && z in db.zones && z != f
    ensures Working(db, DeleteBatch(p, db.zones[f], q, id), p, z, cid)
  {
    var b := DeleteBatch(p, db.zones[f], q, id);
    cid := OwnCommit(p, q, z);
    OfConcat([DeleteCommit(p.meta, db.zones[f], id)], Planned(p, q, |q.order|), z);
    assert Of([DeleteCommit(p.meta, db.zones[f], id)], z) == [];
    assert Of(b.commits, z) == Own(p, q, z, cid);
    assert !b.HasOp(z);
  }

  /** What dropping the zone leaves of the others. */
  lemma DropLeaves(recorded: Db, f: ZoneId, now: Db)
    requires Integrity(recorded) && Acyclic(recorded.rows) && DeleteZone(recorded, f) == Ok(now)
    requires Cascade(recorded.rows, InZone(recorded.rows, f)) == InZone(recorded.rows, f)
    ensures Integrity(now) && Acyclic(now.rows) && Within(now.rows, recorded.rows)
    ensures now.zones.Keys == recorded.zones.Keys - {f} && now.commits == recorded.commits
    ensures forall z :: z in now.zones ==> now.zones[z] == recorded.zones[z]
  {
    DeleteKeepsIntegrity(recorded, InZone(recorded.rows, f));
    FewerLinks(recorded.rows, now.rows);
  }

  lemma DropServes(recorded: Db, f: ZoneId, now: Db, z: ZoneId)
    requires Integrity(recorded) && DeleteZone(recorded, f) == Ok(now) && z != f
    requires Cascade(recorded.rows, InZone(recorded.rows, f)) == InZone(recorded.rows, f)
    ensures Served(now.rows, z) == Served(recorded.rows, z)
  {
    ServedWithout(recorded.rows, InZone(recorded.rows, f), z);
  }

  /** Everything but the law itself. */
  lemma DeleteLeaves(db: Db, p: Intent, f: ZoneId, q: Queue, id: CommitId) returns (carried: Db, recorded: Db)
    requires Lawful(db) && f in db.zones && DepartureQueued(db, f, q)
    requires WriteBatch(db, DeleteBatch(p, db.zones[f], q, id)).Ok?
    ensures var b := DeleteBatch(p, db.zones[f], q, id);
            var now := WriteBatch(db, b).value;
            && Wrote(db, carried, recorded, b)
            && DeleteZone(recorded, f) == Ok(now) && recorded.rows == carried.rows && Integrity(recorded)
            && recorded.zones.Keys == db.zones.Keys && Acyclic(recorded.rows)
            && Cascade(recorded.rows, InZone(recorded.rows, f)) == InZone(recorded.rows, f)
  {
    var b := DeleteBatch(p, db.zones[f], q, id);
    carried, recorded := DeleteParts(db, b, f);
    WriteCarries(db, q);
    WriteKeepsAcyclic(db, q);
    ZoneGoesAlone(db, f, q, carried);
    RecordKeepsIntegrity(carried, recorded, b, b.commits);
  }

  lemma DeleteKeepsZone(db: Db, carried: Db, recorded: Db, now: Db, p: Intent, f: ZoneId, q: Queue, id: CommitId, z: ZoneId)
    requires Lawful(db) && f in db.zones && DepartureQueued(db, f, q) && p.kind == Edit && z in db.zones && z != f
    requires Wrote(db, carried, recorded, DeleteBatch(p, db.zones[f], q, id)) && Shallow(db.rows, f)
    requires z in now.zones && z in recorded.zones && now.zones[z] == recorded.zones[z] && now.commits == recorded.commits
    requires Served(now.rows, z) == Served(recorded.rows, z)
    ensures LawAt(now, z)
  {
    var b := DeleteBatch(p, db.zones[f], q, id);
    ShallowIffCascade(db.rows, f);
    var cid := DeleteWorks(db, p, f, q, id, z);
    ZoneKeepsLaw(db, carried, recorded, b, p, z, cid);
    UntouchedKeepsLaw(recorded, now, z);
  }

  /** A zone's deletion, carried out, with the zone's own rows dropped last. */
  ghost predicate Departed(db: Db, carried: Db, recorded: Db, now: Db, p: Intent, f: ZoneId, q: Queue, id: CommitId)
  {
    && Lawful(db) && f in db.zones && DepartureQueued(db, f, q) && p.kind == Edit
    && Wrote(db, carried, recorded, DeleteBatch(p, db.zones[f], q, id))
    && Within(now.rows, carried.rows) && now.commits == recorded.commits
  }

  lemma DeleteNamed(db: Db, carried: Db, recorded: Db, now: Db, p: Intent, f: ZoneId, q: Queue, id: CommitId, rid: RecordId)
    requires Departed(db, carried, recorded, now, p, f, q, id)
    requires rid in Gone(db, q) && rid in db.rows && db.rows[rid].zone != f
    requires db.rows[rid].zone in now.zones && LawAt(now, db.rows[rid].zone)
    ensures rid in Hanging(db.rows, f)
  {
    var b, z := DeleteBatch(p, db.zones[f], q, id), db.rows[rid].zone;
    var cid := DeleteWorks(db, p, f, q, id, z);
    WriteCarries(db, q);
    CommitsRecorded(carried, b, b.commits);
    ZoneRecorded(carried, recorded, b, z);
    GoneWasNamed(db, carried, now, b, p, z, cid, rid);
  }

  lemma DeleteKeepsLaw(db: Db, p: Intent, f: ZoneId, q: Queue, id: CommitId)
    requires Lawful(db) && f in db.zones && DepartureQueued(db, f, q) && p.kind == Edit
    requires WriteBatch(db, DeleteBatch(p, db.zones[f], q, id)).Ok? && Shallow(db.rows, f)
    ensures Lawful(WriteBatch(db, DeleteBatch(p, db.zones[f], q, id)).value)
  {
    var now := WriteBatch(db, DeleteBatch(p, db.zones[f], q, id)).value;
    var carried, recorded := DeleteLeaves(db, p, f, q, id);
    DropLeaves(recorded, f, now);
    forall z | z in now.zones
      ensures LawAt(now, z)
    {
      DropServes(recorded, f, now, z);
      DeleteKeepsZone(db, carried, recorded, now, p, f, q, id, z);
    }
  }

  lemma TookNamed(db: Db, carried: Db, recorded: Db, now: Db, p: Intent, f: ZoneId, q: Queue, id: CommitId)
    requires Departed(db, carried, recorded, now, p, f, q, id)
    requires forall z :: z in db.zones && z != f ==> z in now.zones && LawAt(now, z)
    ensures Gone(db, q) <= Hanging(db.rows, f) + InZone(db.rows, f)
  {
    forall rid | rid in Gone(db, q)
      ensures rid in Hanging(db.rows, f) + InZone(db.rows, f)
    {
      if rid in db.rows && db.rows[rid].zone != f {
        DeleteNamed(db, carried, recorded, now, p, f, q, id, rid);
      }
    }
  }

  lemma LawfulIsShallow(db: Db, carried: Db, recorded: Db, now: Db, p: Intent, f: ZoneId, q: Queue, id: CommitId)
    requires Departed(db, carried, recorded, now, p, f, q, id)
    requires Lawful(now) && now.zones.Keys == db.zones.Keys - {f}
    ensures Shallow(db.rows, f)
  {
    TookNamed(db, carried, recorded, now, p, f, q, id);
    NamedIsShallow(db, f, q);
  }

  lemma NamedIsShallow(db: Db, f: ZoneId, q: Queue)
    requires Ids(AllDeletes(q)) == Hanging(db.rows, f) && Gone(db, q) <= Hanging(db.rows, f) + InZone(db.rows, f)
    ensures Shallow(db.rows, f)
  {
    ShallowIffCascade(db.rows, f);
  }

  lemma DeleteTookNamed(db: Db, p: Intent, f: ZoneId, q: Queue, id: CommitId)
    requires Lawful(db) && f in db.zones && DepartureQueued(db, f, q) && p.kind == Edit
    requires WriteBatch(db, DeleteBatch(p, db.zones[f], q, id)).Ok?
    requires Lawful(WriteBatch(db, DeleteBatch(p, db.zones[f], q, id)).value)
    ensures Shallow(db.rows, f)
  {
    var now := WriteBatch(db, DeleteBatch(p, db.zones[f], q, id)).value;
    var carried, recorded := DeleteLeaves(db, p, f, q, id);
    DropLeaves(recorded, f, now);
    LawfulIsShallow(db, carried, recorded, now, p, f, q, id);
  }

  /** Deleting a zone keeps the law of every other if and only if what it
      generated elsewhere generated nothing outside it in turn. */
  lemma DeleteLawfulIff(db: Db, p: Intent, f: ZoneId, q: Queue, id: CommitId)
    requires Lawful(db) && f in db.zones && DepartureQueued(db, f, q) && p.kind == Edit
    requires WriteBatch(db, DeleteBatch(p, db.zones[f], q, id)).Ok?
    ensures Lawful(WriteBatch(db, DeleteBatch(p, db.zones[f], q, id)).value) <==> Shallow(db.rows, f)
  {
    if Shallow(db.rows, f) {
      DeleteKeepsLaw(db, p, f, q, id);
    }
    if Lawful(WriteBatch(db, DeleteBatch(p, db.zones[f], q, id)).value) {
      DeleteTookNamed(db, p, f, q, id);
    }
  }
}
