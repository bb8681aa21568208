/** Every batch the planners make and the store takes is one that travels: what
    arrives elsewhere writes there what was written here. */
module Wired {
  import opened Dns
  import opened Changes
  import opened Ordering
  import opened Store
  import opened Write
  import opened Carry
  import opened Batch
  import opened Upkeep
  import opened Runs
  import opened Departure
  import opened Lifetime
  import opened Codec

  // --------------------------------------------- what the store's checks come to

  lemma {:induction false} UpdatesValid(db: Db, us: seq<Update>)
    requires UpdateAll(db, us).Ok?
    ensures forall u :: u in us ==> ValidRecord(u.after)
    decreases |us|
  {
    if us != [] {
      UpdatesValid(UpdateRecord(db, us[0].after).value, us[1..]);
      assert us == [us[0]] + us[1..];
    }
  }

  lemma {:induction false} InsertsValid(db: Db, rs: seq<Record>)
    requires InsertAll(db, rs).Ok?
    ensures forall r :: r in rs ==> ValidRecord(r)
    decreases |rs|
  {
    if rs != [] {
      InsertsValid(InsertRecord(db, rs[0]).value, rs[1..]);
      assert rs == [rs[0]] + rs[1..];
    }
  }

  lemma {:induction false} OpsValid(db: Db, ops: seq<ZoneOp>, housed: Db)
    requires WriteOps(db, ops) == Ok(housed)
    ensures housed.rows == db.rows && forall op :: op in ops && !op.DeleteOp? ==> ValidZone(op.zone)
    decreases |ops|
  {
    if ops != [] {
      var next := match ops[0] case CreateOp(z) => CreateZone(db, z) case UpdateOp(z) => UpdateZone(db, z) case DeleteOp(_) => Ok(db);
      OpsValid(next.value, ops[1..], housed);
      assert ops == [ops[0]] + ops[1..];
    }
  }

  lemma {:induction false} CommitsValid(db: Db, b: Batch, cs: seq<Commit>)
    requires WriteCommits(db, b, cs).Ok?
    ensures forall c :: c in cs ==> ValidCommit(c)
    decreases |cs|
  {
    if cs != [] {
      CommitsValid(WriteCommit(db, b, cs[0]).value, b, cs[1..]);
      assert cs == [cs[0]] + cs[1..];
    }
  }

  lemma QueueIsValid(db: Db, q: Queue)
    requires RowsOk(db.rows) && WellQueued(db.rows, q) && WriteQueue(db, q).Ok?
    ensures QueueValid(q)
  {
    var less := DeleteAll(db, Ordered(AllDeletes(q), true)).value;
    UpdatesValid(less, AllUpdates(q));
    InsertsValid(UpdateAll(less, AllUpdates(q)).value, Ordered(AllInserts(q), false));
    OrderedIsPermutation(AllInserts(q), false);
    forall r | r in AllInserts(q)
      ensures ValidRecord(r)
    {
      assert r in multiset(AllInserts(q));
    }
    forall z
      ensures RecordsValid(q.For(z))
    {
      ZoneIsValid(db.rows, q, z);
    }
  }

  lemma ZoneIsValid(rows: Rows, q: Queue, z: ZoneId)
    requires RowsOk(rows) && WellQueued(rows, q)
    requires (forall u :: u in AllUpdates(q) ==> ValidRecord(u.after)) && forall r :: r in AllInserts(q) ==> ValidRecord(r)
    ensures RecordsValid(q.For(z))
  {
    Queued(rows, q, z);
    var c := q.For(z);
    assert z in q.byZone ==> z in q.order;
    forall r | r in c.deletes
      ensures ValidRecord(r)
    {
      LeavingIs(c, r);
    }
    forall u | u in c.updates
      ensures ValidRecord(u.before) && ValidRecord(u.after)
    {
      LeavingIs(c, u.before);
      var k :| 0 <= k < |q.order| && q.order[k] == z;
      InUpdates(q, |q.order|, u);
    }
    forall r | r in c.inserts
      ensures ValidRecord(r)
    {
      var k :| 0 <= k < |q.order| && q.order[k] == z;
      InInserts(q, |q.order|, r);
    }
  }

  // ------------------------------------------------------------------ any batch

  /** Queued from the store's own rows, each commit to a zone the batch changes, and
      each zone's network read off its name. */
  ghost predicate Sendable(f: Forms, db: Db, b: Batch)
  {
    && WellQueued(db.rows, b.queue)
    && (forall i :: 0 <= i < |b.commits| ==> Backed(b, b.commits[i].zone))
    && (forall op :: op in b.ops && !op.DeleteOp? ==> op.zone.prefix == f.prefixOf(op.zone.name))
  }

  lemma WrittenIsWellFormed(f: Forms, db: Db, b: Batch)
    requires RowsOk(db.rows) && Sendable(f, db, b) && WriteBatch(db, b).Ok?
    ensures WellFormed(f, b)
  {
    var housed := WriteOps(db, b.ops).value;
    OpsValid(db, b.ops, housed);
    QueueIsValid(housed, b.queue);
    CommitsValid(WriteQueue(housed, b.queue).value, b, b.commits);
  }

  // ------------------------------------------------------- the planners' batches

  ghost predicate NetworkFromName(f: Forms, ch: Change)
  {
    match ch
    case Created(_, _, _, z, _, _) => z.prefix == f.prefixOf(z.name)
    case Resettled(_, asked, _) => asked.prefix == f.prefixOf(asked.name)
    case _ => true
  }

  lemma EditSendable(f: Forms, db: Db, p: Intent, q: Queue)
    requires WellQueued(db.rows, q)
    ensures Sendable(f, db, EditBatch(p, q))
  {
    PlannedBacked(p, q, |q.order|, EditBatch(p, q));
  }

  lemma CreateSendable(f: Forms, db: Db, p: Intent, z: Zone, q: Queue)
    requires WellQueued(db.rows, q) && z.prefix == f.prefixOf(z.name)
    ensures Sendable(f, db, CreateBatch(p, z, q))
  {
    PlannedBacked(p, q, |q.order|, CreateBatch(p, z, q));
  }

  lemma UpdateSendable(f: Forms, db: Db, m: Meta, was: Zone, asked: Zone, id: CommitId)
    requires asked.prefix == f.prefixOf(asked.name)
    ensures Sendable(f, db, UpdateBatch(m, was, asked, id))
  {
    assert UpdateBatch(m, was, asked, id).ops[0].Id() == asked.id;
  }

  lemma DeleteSendable(f: Forms, db: Db, p: Intent, z: Zone, q: Queue, id: CommitId)
    requires WellQueued(db.rows, q)
    ensures Sendable(f, db, DeleteBatch(p, z, q, id))
  {
    var b := DeleteBatch(p, z, q, id);
    PlannedBacked(p, q, |q.order|, b);
    assert b.ops[0].Id() == z.id;
    forall i | 0 <= i < |b.commits|
      ensures Backed(b, b.commits[i].zone)
    {
      if i > 0 { assert b.commits[i] == Planned(p, q, |q.order|)[i - 1]; }
    }
  }

  lemma ChangeSendable(f: Forms, db: Db, ch: Change, next: Db)
    requires Integrity(db) && Taken(db, ch, next) && NetworkFromName(f, ch)
    ensures Sendable(f, db, BatchOf(db, ch))
  {
    match ch
    case Edited(w, policy, p, src, ops, sets, q) =>
      EditedRows(db, p, q, next);
      EditSendable(f, db, p, q);
    case RolledTo(w, policy, p, src, kept, first, mint, c, q) =>
      EditedRows(db, p, q, next);
      RollbackCommands(w, policy, src, kept, first, mint, c, q);
      EditSendable(f, db, p, q);
    case Refilled(w, policy, p, sources, first, q, mint) => EditSendable(f, db, p, q);
    case Created(w, policy, p, z, c, q) =>
      FoundingPlanned(db, w, policy, p, z, c, q);
      CreateSendable(f, db, p, z, q);
    case Resettled(m, asked, id) => UpdateSendable(f, db, m, db.zones[asked.id], asked, id);
    case Deleted(p, fz, q, id) => DeleteSendable(f, db, p, db.zones[fz], q, id);
  }

  /** What any planner planned and the store took decodes, elsewhere, to a batch that
      writes the same. */
  lemma TakenTravels(f: Forms, db: Db, ch: Change, next: Db)
    requires f.Lawful() && Integrity(db) && Taken(db, ch, next) && NetworkFromName(f, ch)
    ensures var b := BatchOf(db, ch);
            Decode(f, Encode(f, b)) == Some(Arrived(b)) && WriteBatch(db, Arrived(b)) == Ok(next)
  {
    var b := BatchOf(db, ch);
    ChangeSendable(f, db, ch, next);
    WrittenIsWellFormed(f, db, b);
    DecodeEncode(f, b);
    ArrivedWritesTheSame(f, db, b);
  }
}
