/** The four kinds of batch the write path plans, and what each needs for the law to
    outlive it. */
module Runs {
  import opened Dns
  import opened Journal
  import opened Changes
  import opened Ordering
  import opened Store
  import opened Write
  import opened View
  import opened Carry
  import opened Batch
  import opened History
  import opened Upkeep

  // --------------------------------------------- nothing goes without a word

  ghost predicate Within(less: Rows, rows: Rows)
  {
    forall id :: id in less ==> id in rows && less[id] == rows[id]
  }

  lemma ServedWithin(less: Rows, rows: Rows, z: ZoneId, k: Key)
    requires Within(less, rows) && k in Served(less, z)
    ensures k in Served(rows, z)
  {
    var id := ServedBy(less, z, k);
    assert id in rows && rows[id].zone == z && KeyOf(rows[id]) == k;
  }

  /** Where the law holds before and after, every row of the zone that went was
      named by the zone's own changes. */
  lemma GoneWasNamed(was: Db, carried: Db, final: Db, b: Batch, p: Intent, z: ZoneId, cid: CommitId, rid: RecordId)
    requires Working(was, b, p, z, cid) && WriteQueue(was, b.queue) == Ok(carried)
    requires z in final.zones && LawAt(final, z) && Within(final.rows, carried.rows)
    requires Of(final.commits, z) == Of(was.commits, z) + Of(b.commits, z)
    requires rid in Gone(was, b.queue) && rid in was.rows && was.rows[rid].zone == z
    ensures rid in Ids(AllDeletes(b.queue))
  {
    var q, k, gone := b.queue, KeyOf(was.rows[rid]), Gone(was, b.queue);
    var es, st := Events(Of(b.commits, z)), Standing(was.zones[z], Served(was.rows, z));
    WriteCarries(was, q);
    var mid :| CarriedBy(was.rows, mid, carried.rows, q, gone);
    OwnEventsLead(was, final, b, z);
    FirstEventDecides(st, es, k);
    ServedAt(was.rows, z, rid);
    FirstForIs(es, k);
    OwnEvents(b, p, z, cid);
    match FirstFor(es, k)
    case Some(e) =>
      RemovalsMention(q.For(z), k);
      TakenOutIsNamed(was.rows, q, gone, z, rid);
    case None =>
      NoneArrives(was.rows, mid, carried.rows, q, gone, z, k);
      ServedWithin(final.rows, carried.rows, z, k);
      ServedBySame(was.rows, mid, carried.rows, q, gone, z, rid);
  }

  lemma NoneArrives(was: Rows, mid: Rows, now: Rows, q: Queue, gone: set<RecordId>, z: ZoneId, k: Key)
    requires RowsOk(was) && RowsOk(now) && WellQueued(was, q) && CarriedBy(was, mid, now, q, gone)
    requires !Mentions(EventsOf(q.For(z)), Add, k)
    ensures !Concerns(Arriving(q.For(z)), k)
  {
    forall r | r in Arriving(q.For(z))
      ensures KeyOf(r) != k
    {
      ArrivingStands(was, mid, now, q, gone, z, r);
      ArrivalsMention(q.For(z), r);
    }
  }

  // ------------------------------------------------------------------ edits

  lemma EditParts(db: Db, p: Intent, q: Queue)
    requires q.Proper() && WriteBatch(db, EditBatch(p, q)).Ok?
    ensures WriteQueue(db, q).Ok?
    ensures Wrote(db, WriteQueue(db, q).value, WriteBatch(db, EditBatch(p, q)).value, EditBatch(p, q))
  {
  }

  lemma EditWorks(db: Db, p: Intent, q: Queue, z: ZoneId) returns (id: CommitId)
    requires Lawful(db) && WellPlanned(db, q) && p.kind != ZoneCreate && z in db.zones
    ensures Working(db, EditBatch(p, q), p, z, id)
  {
    id := OwnCommit(p, q, z);
  }

  lemma EditKeepsZone(db: Db, p: Intent, q: Queue, z: ZoneId)
    requires Lawful(db) && WellPlanned(db, q) && p.kind != ZoneCreate && WriteBatch(db, EditBatch(p, q)).Ok?
    requires Closed(db.rows, Ids(AllDeletes(q))) && z in db.zones
    ensures z in WriteBatch(db, EditBatch(p, q)).value.zones && LawAt(WriteBatch(db, EditBatch(p, q)).value, z)
  {
    EditParts(db, p, q);
    ClosedIffNoMore(db.rows, Ids(AllDeletes(q)));
    var id := EditWorks(db, p, q, z);
    ZoneKeepsLaw(db, WriteQueue(db, q).value, WriteBatch(db, EditBatch(p, q)).value, EditBatch(p, q), p, z, id);
  }

  /** Recording commits leaves the rows alone, and every zone where it was. */
  lemma RecordKeepsIntegrity(carried: Db, now: Db, b: Batch, cs: seq<Commit>)
    requires Integrity(carried) && WriteCommits(carried, b, cs) == Ok(now)
    ensures Integrity(now) && now.rows == carried.rows && now.zones.Keys == carried.zones.Keys
    ensures now.commits == carried.commits + cs
  {
    CommitsRecorded(carried, b, cs);
  }

  lemma EditKeepsLaw(db: Db, p: Intent, q: Queue)
    requires Lawful(db) && WellPlanned(db, q) && p.kind != ZoneCreate && WriteBatch(db, EditBatch(p, q)).Ok?
    requires Closed(db.rows, Ids(AllDeletes(q)))
    ensures Lawful(WriteBatch(db, EditBatch(p, q)).value)
  {
    var b := EditBatch(p, q);
    EditParts(db, p, q);
    var carried, now := WriteQueue(db, q).value, WriteBatch(db, b).value;
    WriteKeepsAcyclic(db, q);
    WriteCarries(db, q);
    RecordKeepsIntegrity(carried, now, b, b.commits);
    forall z | z in now.zones
      ensures LawAt(now, z)
    {
      EditKeepsZone(db, p, q, z);
    }
  }

  /** A row an edit took was one it named, where the law outlived the edit. */
  lemma EditNamed(db: Db, p: Intent, q: Queue, id: RecordId)
    requires Lawful(db) && WellPlanned(db, q) && p.kind != ZoneCreate && WriteBatch(db, EditBatch(p, q)).Ok?
    requires Lawful(WriteBatch(db, EditBatch(p, q)).value) && id in Gone(db, q) && id in db.rows
    ensures id in Ids(AllDeletes(q))
  {
    var b, z := EditBatch(p, q), db.rows[id].zone;
    EditParts(db, p, q);
    var carried, now := WriteQueue(db, q).value, WriteBatch(db, b).value;
    WriteCarries(db, q);
    CommitsRecorded(carried, b, b.commits);
    var cid := EditWorks(db, p, q, z);
    ZoneRecorded(carried, now, b, z);
    GoneWasNamed(db, carried, now, b, p, z, cid, id);
  }

  /** An edit, an import or a rollback keeps the law if and only if no row left
      behind hangs off one it removes. */
  lemma EditLawfulIff(db: Db, p: Intent, q: Queue)
    requires Lawful(db) && WellPlanned(db, q) && p.kind != ZoneCreate && WriteBatch(db, EditBatch(p, q)).Ok?
    ensures Lawful(WriteBatch(db, EditBatch(p, q)).value) <==> Closed(db.rows, Ids(AllDeletes(q)))
  {
    if Closed(db.rows, Ids(AllDeletes(q))) {
      EditKeepsLaw(db, p, q);
    }
    if Lawful(WriteBatch(db, EditBatch(p, q)).value) {
      forall id | id in Gone(db, q)
        ensures id in Ids(AllDeletes(q))
      {
        if id in db.rows { EditNamed(db, p, q, id); }
      }
      ClosedIffNoMore(db.rows, Ids(AllDeletes(q)));
    }
  }

  // ----------------------------------------------------------- a new zone

  function CreateBatch(p: Intent, z: Zone, q: Queue): Batch
    requires q.Proper()
  {
    Batch([CreateOp(z)], q, Planned(p, q, |q.order|))
  }

  /** What the creation of a zone is planned from: a zone under an identifier
      nothing has used, with at least the name servers validation insists on. */
  ghost predicate CreationPlanned(db: Db, p: Intent, z: Zone, q: Queue)
  {
    && p.kind == ZoneCreate && p.primary == z.id
    && Of(db.commits, z.id) == []
    && WellQueued(db.rows, q)
    && z.id in q.byZone && z.id in q.zones && q.zones[z.id] == z
    && !q.byZone[z.id].Empty() && q.byZone[z.id].soa.None?
    && forall y :: y in q.byZone && y != z.id ==> AsRead(db, q, y)
  }

  /** A creation that the store takes and whose removals leave nothing dangling. */
  ghost predicate Creating(db: Db, p: Intent, z: Zone, q: Queue)
  {
    && Lawful(db) && CreationPlanned(db, p, z, q) && WriteBatch(db, CreateBatch(p, z, q)).Ok?
    && Closed(db.rows, Ids(AllDeletes(q)))
  }

  ghost function Housing(db: Db, z: Zone): Db
  {
    db.(zones := db.zones[z.id := z])
  }

  lemma CreateParts(db: Db, p: Intent, z: Zone, q: Queue)
    requires q.Proper() && WriteBatch(db, CreateBatch(p, z, q)).Ok?
    ensures z.id !in db.zones && ValidZone(z)
    ensures WriteQueue(Housing(db, z), q).Ok?
    ensures Wrote(Housing(db, z), WriteQueue(Housing(db, z), q).value, WriteBatch(db, CreateBatch(p, z, q)).value, CreateBatch(p, z, q))
  {
    var b := CreateBatch(p, z, q);
    var housed := Housing(db, z);
    assert WriteOps(db, b.ops) == WriteOps(housed, b.ops[1..]);
    assert b.ops[1..] == [];
    var recorded := WriteCommits(WriteQueue(housed, q).value, b, b.commits).value;
    assert WriteDrops(recorded, b.ops) == WriteDrops(recorded, b.ops[1..]);
  }

  lemma HousingKeeps(db: Db, z: Zone)
    requires Integrity(db) && z.id !in db.zones
    ensures Integrity(Housing(db, z))
  {
  }

  lemma HousingKeepsLaw(db: Db, z: Zone, y: ZoneId)
    requires y in db.zones && LawAt(db, y) && z.id !in db.zones
    ensures LawAt(Housing(db, z), y)
  {
    assert Housing(db, z).zones[y] == db.zones[y];
  }

  lemma CreateWorks(db: Db, p: Intent, z: Zone, q: Queue, y: ZoneId) returns (id: CommitId)
    requires Lawful(db) && CreationPlanned(db, p, z, q) && y in db.zones && z.id !in db.zones
    ensures Working(Housing(db, z), CreateBatch(p, z, q), p, y, id)
  {
    HousingKeeps(db, z);
    HousingKeepsLaw(db, z, y);
    id := OwnCommit(p, q, y);
    assert !CreateBatch(p, z, q).HasOp(y);
  }

  lemma CreateKeepsOther(db: Db, p: Intent, z: Zone, q: Queue, y: ZoneId)
    requires Creating(db, p, z, q) && y in db.zones
    ensures y in WriteBatch(db, CreateBatch(p, z, q)).value.zones && LawAt(WriteBatch(db, CreateBatch(p, z, q)).value, y)
  {
    var b, housed := CreateBatch(p, z, q), Housing(db, z);
    CreateParts(db, p, z, q);
    ClosedIffNoMore(db.rows, Ids(AllDeletes(q)));
    var id := CreateWorks(db, p, z, q, y);
    ZoneKeepsLaw(housed, WriteQueue(housed, q).value, WriteBatch(db, b).value, b, p, y, id);
  }

  /** Nothing of the new zone's can leave, as nothing is there. */
  lemma NothingLeaves(rows: Rows, z: ZoneId, c: Changes)
    requires WellQueuedIn(rows, z, c) && forall id :: id in rows ==> rows[id].zone != z
    ensures Leaving(c) == []
  {
    if Leaving(c) != [] {
      LeavingHeld(rows, z, c, Leaving(c)[0]);
    }
  }

  lemma CreatedServes(housed: Db, carried: Db, q: Queue, z: ZoneId)
    requires Integrity(housed) && WellQueued(housed.rows, q) && WriteQueue(housed, q) == Ok(carried)
    requires Closed(housed.rows, Ids(AllDeletes(q))) && forall id :: id in housed.rows ==> housed.rows[id].zone != z
    requires z in q.byZone
    ensures Fits(map[], q.byZone[z]) && Leaving(q.byZone[z]) == []
    ensures Served(carried.rows, z) == Outcome(map[], q.byZone[z])
  {
    ClosedIffNoMore(housed.rows, Ids(AllDeletes(q)));
    WriteServes(housed, q, z);
    assert Served(housed.rows, z) == map[] by { assert KeysIn(housed.rows, z) == {}; }
    NothingLeaves(housed.rows, z, q.byZone[z]);
  }

  lemma CreatedRecords(housed: Db, carried: Db, now: Db, p: Intent, z: Zone, q: Queue) returns (id: CommitId)
    requires q.Proper() && z.id in q.byZone && q.zones[z.id] == z && !q.byZone[z.id].Empty() && Of(carried.commits, z.id) == []
    requires Recorded(carried, now, CreateBatch(p, z, q), Planned(p, q, |q.order|)) && z.id in carried.zones && carried.zones[z.id] == z
    ensures Of(now.commits, z.id) == [CommitFor(p, z, q.byZone[z.id], id)]
    ensures z.id in now.zones && now.zones[z.id] == z
  {
    var b := CreateBatch(p, z, q);
    ZoneRecorded(carried, now, b, z.id);
    id := OwnCommit(p, q, z.id);
    var commit := CommitFor(p, z, q.byZone[z.id], id);
    assert Of(b.commits, z.id) == [commit];
    CreatedZone(b, z, commit);
  }

  lemma FirstCommitLaw(p: Intent, z: Zone, c: Changes, id: CommitId)
    requires Fits(map[], c) && Leaving(c) == [] && Creates(p, z.id)
    ensures Law([CommitFor(p, z, c, id)], z, Outcome(map[], c))
  {
    CreationReplays(p, z, c, id);
    LawBegins(CommitFor(p, z, c, id), z, Outcome(map[], c));
  }

  /** The store with the new zone in it, before any of its records. */
  ghost predicate Begun(housed: Db, p: Intent, z: Zone, q: Queue)
  {
    && Integrity(housed) && WellQueued(housed.rows, q)
    && Closed(housed.rows, Ids(AllDeletes(q))) && (forall id :: id in housed.rows ==> housed.rows[id].zone != z.id)
    && z.id in q.byZone && q.zones[z.id] == z && !q.byZone[z.id].Empty() && Creates(p, z.id)
    && Of(housed.commits, z.id) == [] && z.id in housed.zones && housed.zones[z.id] == z
  }

  lemma CreatedLaw(housed: Db, carried: Db, now: Db, p: Intent, z: Zone, q: Queue)
    requires Begun(housed, p, z, q)
    requires Wrote(housed, carried, now, CreateBatch(p, z, q))
    ensures z.id in now.zones && LawAt(now, z.id)
  {
    WriteCarries(housed, q);
    CreatedServes(housed, carried, q, z.id);
    CommitsRecorded(carried, CreateBatch(p, z, q), Planned(p, q, |q.order|));
    var id := CreatedRecords(housed, carried, now, p, z, q);
    FirstCommitLaw(p, z, q.byZone[z.id], id);
  }

  lemma CreateBegins(db: Db, p: Intent, z: Zone, q: Queue)
    requires Integrity(db) && CreationPlanned(db, p, z, q) && z.id !in db.zones && Closed(db.rows, Ids(AllDeletes(q)))
    ensures Begun(Housing(db, z), p, z, q)
  {
    HousingKeeps(db, z);
  }

  lemma CreateBeginsLaw(db: Db, p: Intent, z: Zone, q: Queue)
    requires Creating(db, p, z, q)
    ensures z.id in WriteBatch(db, CreateBatch(p, z, q)).value.zones && LawAt(WriteBatch(db, CreateBatch(p, z, q)).value, z.id)
  {
    CreateParts(db, p, z, q);
    CreateBegins(db, p, z, q);
    var housed := Housing(db, z);
    CreatedLaw(housed, WriteQueue(housed, q).value, WriteBatch(db, CreateBatch(p, z, q)).value, p, z, q);
  }

  lemma CreatedZone(b: Batch, z: Zone, commit: Commit)
    requires b.ops == [CreateOp(z)] && commit.zone == z.id
    ensures ZoneThrough(z, b, [commit]) == z
  {
    assert b.ops[0].Id() == z.id;
    assert [commit][1..] == [];
  }

  lemma CreateKeepsIntegrity(db: Db, p: Intent, z: Zone, q: Queue)
    requires Creating(db, p, z, q)
    ensures var now := WriteBatch(db, CreateBatch(p, z, q)).value;
            Integrity(now) && Acyclic(now.rows) && now.zones.Keys == db.zones.Keys + {z.id}
  {
    var b, housed := CreateBatch(p, z, q), Housing(db, z);
    CreateParts(db, p, z, q);
    HousingKeeps(db, z);
    WriteKeepsAcyclic(housed, q);
    WriteCarries(housed, q);
    RecordKeepsIntegrity(WriteQueue(housed, q).value, WriteBatch(db, b).value, b, b.commits);
  }

  /** Creating a zone begins its history and keeps every other. */
  lemma CreateKeepsLaw(db: Db, p: Intent, z: Zone, q: Queue)
    requires Creating(db, p, z, q)
    ensures Lawful(WriteBatch(db, CreateBatch(p, z, q)).value)
  {
    var now := WriteBatch(db, CreateBatch(p, z, q)).value;
    CreateKeepsIntegrity(db, p, z, q);
    CreateBeginsLaw(db, p, z, q);
    forall y | y in now.zones && y != z.id
      ensures LawAt(now, y)
    {
      CreateKeepsOther(db, p, z, q, y);
    }
  }

  // ------------------------------------------------- a zone's own settings

  /** Only a change to the start of authority is a change to what is served. */
  function UpdateEvents(was: Zone, now: Zone): seq<Event>
  {
    if SameSoa(was.soa, now.soa) then []
    else [SoaEvent(Del, was.name, was.soa), SoaEvent(Add, now.name, now.soa).(seqNo := 1)]
  }

  function UpdateCommit(m: Meta, was: Zone, now: Zone, id: CommitId): Commit
  {
    Commit(id, now.id, now.name, was.soa.serial, now.soa.serial, ZoneUpdate,
           m.source, m.actor, m.comment, None, UpdateEvents(was, now))
  }

  /** The settings as asked for, at the next serial whatever serial was asked for. */
  function Advanced(was: Zone, asked: Zone): Zone
  {
    asked.(soa := asked.soa.(serial := Next(was.soa.serial)))
  }

  function UpdateBatch(m: Meta, was: Zone, asked: Zone, id: CommitId): Batch
  {
    Batch([UpdateOp(Advanced(was, asked))], NO_QUEUE, [UpdateCommit(m, was, Advanced(was, asked), id)])
  }

  lemma UpdateReplays(was: Zone, now: Zone, content: map<Key, nat>)
    ensures DifferenceSequence(UpdateEvents(was, now))
    ensures Replay(Standing(was, content), UpdateEvents(was, now)) == Some(Standing(now, content))
  {
    if !SameSoa(was.soa, now.soa) {
      var es := UpdateEvents(was, now);
      SoaEventTells(Del, was.name, was.soa);
      SoaEventTells(Add, now.name, now.soa);
      assert Step(Standing(was, content), es[0]) == Some(State(content, None));
      assert Step(State(content, None), es[1]) == Some(Standing(now, content));
      assert es[1..][1..] == [];
      assert Replay(State(content, None), es[1..]) == Some(Standing(now, content));
    }
  }

  lemma NoQueueWrites(db: Db)
    ensures WriteQueue(db, NO_QUEUE) == Ok(db)
  {
  }

  lemma UpdateParts(db: Db, b: Batch, z: Zone, c: Commit)
    requires b == Batch([UpdateOp(z)], NO_QUEUE, [c]) && c.zone == z.id && WriteBatch(db, b).Ok?
    ensures z.id in db.zones
    ensures WriteBatch(db, b).value == db.(zones := db.zones[z.id := z], commits := db.commits + [c])
    ensures Apart(db.commits, [c])
  {
    var housed := db.(zones := db.zones[z.id := z]);
    assert WriteOps(db, b.ops) == WriteOps(housed, b.ops[1..]);
    NoQueueWrites(housed);
    assert b.ops[0].Id() == z.id;
    assert b.HasOp(z.id);
    assert WriteCommits(housed, b, [c]) == match WriteCommit(housed, b, c) { case Err(e) => Err(e) case Ok(n) => WriteCommits(n, b, [c][1..]) };
    var recorded := AppendCommit(housed, c).value;
    assert WriteDrops(recorded, b.ops) == WriteDrops(recorded, b.ops[1..]);
  }

  lemma UpdatedZoneLaw(db: Db, m: Meta, asked: Zone, id: CommitId, c: Commit)
    requires asked.id in db.zones && LawAt(db, asked.id)
    requires c == UpdateCommit(m, db.zones[asked.id], Advanced(db.zones[asked.id], asked), id) && Apart(db.commits, [c])
    ensures Law(Of(db.commits, asked.id) + [c], Advanced(db.zones[asked.id], asked), Served(db.rows, asked.id))
  {
    var y, was := asked.id, db.zones[asked.id];
    NewSerial(db.commits, [c], y, c);
    UpdateReplays(was, Advanced(was, asked), Served(db.rows, y));
    LawExtends(Of(db.commits, y), was, Served(db.rows, y), c, Advanced(was, asked), Served(db.rows, y));
  }

  lemma UpdateHolds(db: Db, now: Db, m: Meta, asked: Zone, id: CommitId, c: Commit)
    requires Lawful(db) && asked.id in db.zones
    requires c == UpdateCommit(m, db.zones[asked.id], Advanced(db.zones[asked.id], asked), id) && Apart(db.commits, [c])
    requires now == db.(zones := db.zones[asked.id := Advanced(db.zones[asked.id], asked)], commits := db.commits + [c])
    ensures Lawful(now)
  {
    forall y | y in now.zones
      ensures LawAt(now, y)
    {
      OfConcat(db.commits, [c], y);
      if y == asked.id {
        assert Of([c], y) == [c];
        assert Of(now.commits, y) == Of(db.commits, y) + [c];
        UpdatedZoneLaw(db, m, asked, id, c);
      } else {
        assert Of([c], y) == [];
        assert Of(now.commits, y) == Of(db.commits, y);
        UntouchedKeepsLaw(db, now, y);
      }
    }
  }

  /** Changing a zone's settings keeps the law. */
  lemma UpdateKeepsLaw(db: Db, m: Meta, asked: Zone, id: CommitId)
    requires Lawful(db) && asked.id in db.zones
    requires WriteBatch(db, UpdateBatch(m, db.zones[asked.id], asked, id)).Ok?
    ensures Lawful(WriteBatch(db, UpdateBatch(m, db.zones[asked.id], asked, id)).value)
  {
    var was := db.zones[asked.id];
    var z := Advanced(was, asked);
    var c, b := UpdateCommit(m, was, z, id), UpdateBatch(m, was, asked, id);
    UpdateParts(db, b, z, c);
    UpdateHolds(db, WriteBatch(db, b).value, m, asked, id, c);
  }
}
