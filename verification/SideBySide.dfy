/** Two batches planned on the same store and both proposed: what becomes of the
    second when both change a zone. */
module SideBySide {
  import opened Dns
  import opened Journal
  import opened Store
  import opened Write
  import opened Batch
  import opened History
  import opened Upkeep
  import opened Runs
  import Carry
  import Replica
  import ReplayOnce

  ghost predicate Changes(db: Db, p: Intent, q: Queue, z: ZoneId)
  {
    WellPlanned(db, q) && p.kind != ZoneCreate && !q.For(z).Empty()
  }

  /** A plan has a commit for every zone it changes, at the serial after the one the
      zone stands at. */
  lemma NextSerialTaken(db: Db, p: Intent, q: Queue, z: ZoneId) returns (i: nat)
    requires Integrity(db) && Changes(db, p, q, z)
    ensures z in db.zones && i < |EditBatch(p, q).commits|
    ensures EditBatch(p, q).commits[i].zone == z && EditBatch(p, q).commits[i].serialTo == Next(db.zones[z].soa.serial)
  {
    var cs := EditBatch(p, q).commits;
    assert AsRead(db, q, z);
    var id := OwnCommit(p, q, z);
    var c := CommitFor(p, q.zones[z], q.byZone[z], id);
    assert Of(cs, z) == [c];
    OfMembers(cs, z, c);
    i :| 0 <= i < |cs| && cs[i] == c;
  }

  lemma WrittenJournal(db: Db, b: Batch, next: Db)
    requires Integrity(db) && b.ops == [] && WriteBatch(db, b) == Ok(next)
    ensures next.commits == db.commits + b.commits && Apart(db.commits, b.commits) && Integrity(next)
  {
    Carry.WriteCarries(db, b.queue);
    var carried := WriteQueue(db, b.queue).value;
    CommitsRecorded(carried, b, b.commits);
    RecordKeepsIntegrity(carried, next, b, b.commits);
  }

  lemma JournalHas(db: Db, b: Batch, next: Db, i: nat) returns (k: nat)
    requires Integrity(db) && b.ops == [] && WriteBatch(db, b) == Ok(next) && i < |b.commits|
    ensures Integrity(next) && k < |next.commits| && next.commits[k] == b.commits[i]
  {
    WrittenJournal(db, b, next);
    k := |db.commits| + i;
  }

  /** Once a plan is written, its zone's next serial is in the journal. */
  lemma SlotFilled(db: Db, p: Intent, q: Queue, b: Batch, z: ZoneId, next: Db) returns (k: nat)
    requires Integrity(db) && Changes(db, p, q, z) && b == EditBatch(p, q) && WriteBatch(db, b) == Ok(next)
    ensures Integrity(next) && k < |next.commits| && z in db.zones
    ensures next.commits[k].zone == z && next.commits[k].serialTo == Next(db.zones[z].soa.serial)
  {
    var i := NextSerialTaken(db, p, q, z);
    k := JournalHas(db, b, next, i);
  }

  /** Where both change a zone, the second cannot be written once the first is. */
  lemma SecondIsRefused(db: Db, p: Intent, a: Queue, r: Intent, b: Queue, z: ZoneId, next: Db)
    requires Lawful(db) && Changes(db, p, a, z) && Changes(db, r, b, z)
    requires WriteBatch(db, EditBatch(p, a)) == Ok(next)
    ensures WriteBatch(next, EditBatch(r, b)).Err?
  {
    var k := SlotFilled(db, p, a, EditBatch(p, a), z, next);
    var j := NextSerialTaken(db, r, b, z);
    SlotIsTaken(next, EditBatch(r, b), k, j);
  }

  lemma SlotIsTaken(db: Db, b: Batch, i: nat, j: nat)
    requires Integrity(db) && b.ops == [] && i < |db.commits| && j < |b.commits| && SameSlot(db.commits[i], b.commits[j])
    ensures WriteBatch(db, b).Err?
  {
    if WriteBatch(db, b).Ok? { WrittenJournal(db, b, WriteBatch(db, b).value); }
  }

  /** So a log that carries both has an entry no member can write, although each was
      planned, and could be written, on the store as it stood. */
  lemma BothProposedStall(db: Db, p: Intent, a: Queue, r: Intent, b: Queue, z: ZoneId, next: Db)
    requires Lawful(db) && Changes(db, p, a, z) && Changes(db, r, b, z)
    requires WriteBatch(db, EditBatch(p, a)) == Ok(next) && WriteBatch(db, EditBatch(r, b)).Ok?
    requires !ReplayOnce.SomeSeen(db, EditBatch(p, a)) && !ReplayOnce.SomeSeen(next, EditBatch(r, b))
    ensures var log := [Replica.Machine.Command(EditBatch(p, a)), Replica.Machine.Command(EditBatch(r, b))];
            Replica.Fold(ReplayOnce.Carried, db, log, 1) == Some(next) && Replica.Fold(ReplayOnce.Carried, db, log, 2) == None
  {
    var i := NextSerialTaken(db, p, a, z);
    var j := NextSerialTaken(db, r, b, z);
    ReplayOnce.CarriedAsPlanned(db, EditBatch(p, a));
    ReplayOnce.CarriedAsPlanned(next, EditBatch(r, b));
    SecondIsRefused(db, p, a, r, b, z, next);
    var log := [Replica.Machine.Command(EditBatch(p, a)), Replica.Machine.Command(EditBatch(r, b))];
    assert Replica.Fold(ReplayOnce.Carried, db, log, 0) == Some(db);
  }
}
