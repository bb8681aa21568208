/** When the store takes a batch: as long as no zone has come round to a serial it had,
    whatever rows go through are recorded. */
module Acceptance {
  import opened Dns
  import opened Changes
  import opened Ordering
  import opened Store
  import opened Write
  import opened Carry
  import opened Batch
  import opened History
  import opened Upkeep
  import opened Runs
  import opened Departure

  // ----------------------------------------------------------- room for a serial

  /** Identifiers from this one on are unused, and no zone's commits reach further back
      than so many serials. */
  ghost predicate Room(db: Db, mint: CommitId, n: nat)
  {
    forall i :: 0 <= i < |db.commits| ==> db.commits[i].id < mint && Recent(db, db.commits[i], n)
  }

  ghost predicate Recent(db: Db, c: Commit, n: nat)
  {
    c.zone in db.zones ==> Distance(c.serialTo, db.zones[c.zone].soa.serial) <= n
  }

  function Moved(z: Zone): Zone
  {
    z.(soa := z.soa.(serial := Next(z.soa.serial)))
  }

  lemma OneFurther(s: Serial, o: Serial, n: nat)
    requires Distance(s, o) <= n < SERIAL_SPACE - 1
    ensures Distance(s, Next(o)) <= n + 1 && s != Next(o)
  {
  }

  ghost predicate Unused(cs: seq<Commit>, c: Commit)
  {
    forall i :: 0 <= i < |cs| ==> !SameSlot(cs[i], c)
  }

  lemma NextIsUnused(db: Db, mint: CommitId, n: nat, c: Commit)
    requires Room(db, mint, n) && n < SERIAL_SPACE - 1 && mint <= c.id
    requires c.zone in db.zones && c.serialTo == Next(db.zones[c.zone].soa.serial)
    ensures Unused(db.commits, c)
  {
    forall i | 0 <= i < |db.commits|
      ensures !SameSlot(db.commits[i], c)
    {
      assert Recent(db, db.commits[i], n);
      if db.commits[i].zone == c.zone { OneFurther(db.commits[i].serialTo, db.zones[c.zone].soa.serial, n); }
    }
  }

  // --------------------------------------------------------- the commits of a plan

  /** The commit at one place of a plan is the one planned for this zone. */
  ghost predicate PlannedFor(p: Intent, q: Queue, n: nat, i: nat, k: nat)
    requires q.Proper() && n <= |q.order| && i < |Planned(p, q, n)|
  {
    k < n && PlannedAt(p, q, k) == [Planned(p, q, n)[i]]
  }

  lemma PlannedStill(p: Intent, q: Queue, n: nat, i: nat, k: nat)
    requires q.Proper() && 0 < n <= |q.order| && i < |Planned(p, q, n - 1)| && PlannedFor(p, q, n - 1, i, k)
    ensures i < |Planned(p, q, n)| && PlannedFor(p, q, n, i, k)
  {
  }

  lemma PlannedLast(p: Intent, q: Queue, n: nat, i: nat)
    requires q.Proper() && 0 < n <= |q.order| && |Planned(p, q, n - 1)| <= i < |Planned(p, q, n)|
    ensures PlannedFor(p, q, n, i, n - 1)
  {
  }

  lemma {:induction false} PlannedFrom(p: Intent, q: Queue, n: nat, i: nat) returns (k: nat)
    requires q.Proper() && n <= |q.order| && i < |Planned(p, q, n)|
    ensures PlannedFor(p, q, n, i, k)
    decreases n
  {
    if i < |Planned(p, q, n - 1)| {
      k := PlannedFrom(p, q, n - 1, i);
      PlannedStill(p, q, n, i, k);
    } else {
      k := n - 1;
      PlannedLast(p, q, n, i);
    }
  }

  lemma PlannedIs(p: Intent, q: Queue, n: nat, i: nat) returns (k: nat)
    requires q.Proper() && n <= |q.order| && i < |Planned(p, q, n)|
    ensures k < n && !q.byZone[q.order[k]].Empty()
    ensures Planned(p, q, n)[i] == CommitFor(p, q.zones[q.order[k]], q.byZone[q.order[k]], p.mint + k)
  {
    k := PlannedFrom(p, q, n, i);
  }

  /** No two commits claim the same identifier or the same serial of a zone. */
  ghost predicate Apart(cs: seq<Commit>)
  {
    forall i, j :: 0 <= i < j < |cs| ==> !SameSlot(cs[i], cs[j])
  }

  lemma ZonesApart(p: Intent, q: Queue, j: nat, k: nat, c: Commit, d: Commit)
    requires q.Proper() && j < k < |q.order| && PlannedAt(p, q, j) == [c] && PlannedAt(p, q, k) == [d]
    ensures !SameSlot(c, d)
  {
    assert q.order[j] != q.order[k];
  }

  lemma PlannedBefore(p: Intent, q: Queue, n: nat, i: nat, c: Commit)
    requires q.Proper() && n < |q.order| && i < |Planned(p, q, n)| && PlannedAt(p, q, n) == [c]
    ensures !SameSlot(Planned(p, q, n)[i], c)
  {
    var k := PlannedFrom(p, q, n, i);
    ZonesApart(p, q, k, n, Planned(p, q, n)[i], c);
  }

  lemma OneMoreApart(front: seq<Commit>, c: Commit)
    requires Apart(front) && forall i :: 0 <= i < |front| ==> !SameSlot(front[i], c)
    ensures Apart(front + [c])
  {
  }

  lemma {:induction false} PlannedApart(p: Intent, q: Queue, n: nat)
    requires q.Proper() && n <= |q.order|
    ensures Apart(Planned(p, q, n))
    decreases n
  {
    if n > 0 {
      PlannedApart(p, q, n - 1);
      var front, last := Planned(p, q, n - 1), PlannedAt(p, q, n - 1);
      if last == [] {
        assert front + last == front;
      } else {
        forall i | 0 <= i < |front|
          ensures !SameSlot(front[i], last[0])
        {
          PlannedBefore(p, q, n - 1, i, last[0]);
        }
        OneMoreApart(front, last[0]);
      }
    }
  }

  ghost predicate Recordable(db: Db, b: Batch, c: Commit)
  {
    && ValidCommit(c) && c.zone in db.zones && (c.zone in b.queue.byZone || b.HasOp(c.zone))
    && (c.zone in b.queue.byZone ==> b.queue.byZone[c.zone].soa.None?)
  }

  lemma {:induction false} CommitsAccepted(db: Db, b: Batch, cs: seq<Commit>)
    requires forall i :: 0 <= i < |cs| ==> Recordable(db, b, cs[i]) && Unused(db.commits, cs[i])
    requires Apart(cs)
    ensures WriteCommits(db, b, cs).Ok?
    decreases |cs|
  {
    if cs != [] {
      assert Recordable(db, b, cs[0]) && Unused(db.commits, cs[0]);
      var next := WriteCommit(db, b, cs[0]).value;
      forall j | 0 <= j < |cs[1..]|
        ensures Recordable(next, b, cs[1..][j]) && Unused(next.commits, cs[1..][j])
      {
        assert Recordable(db, b, cs[j + 1]) && Unused(db.commits, cs[j + 1]);
        assert !SameSlot(cs[0], cs[j + 1]);
      }
      CommitsAccepted(next, b, cs[1..]);
    }
  }

  // -------------------------------------------------------------------- an edit

  ghost predicate KeepsSoa(q: Queue)
  {
    forall z {:trigger q.For(z)} :: q.For(z).soa.None?
  }

  lemma EditCommitIs(p: Intent, z: Zone, c: Changes, id: CommitId)
    requires p.kind == Edit && p.revertsTo.None? && c.soa.None?
    ensures var k := CommitFor(p, z, c, id); k.id == id && k.zone == z.id && k.serialTo == Next(z.soa.serial) && ValidCommit(k)
  {
    EventsOfShaped(c);
  }

  ghost predicate Editable(db: Db, p: Intent, q: Queue, n: nat)
  {
    && WellPlanned(db, q) && KeepsSoa(q) && p.kind == Edit && p.revertsTo.None?
    && Room(db, p.mint, n) && n < SERIAL_SPACE - 1
  }

  lemma PlannedRecordable(db: Db, p: Intent, q: Queue, n: nat, carried: Db, i: nat)
    requires Editable(db, p, q, n) && i < |Planned(p, q, |q.order|)|
    requires carried.zones == db.zones && carried.commits == db.commits
    ensures var c := Planned(p, q, |q.order|)[i]; Recordable(carried, EditBatch(p, q), c) && Unused(carried.commits, c)
  {
    var k := PlannedIs(p, q, |q.order|, i);
    var z := q.order[k];
    assert AsRead(db, q, z);
    assert q.For(z).soa.None?;
    EditCommitIs(p, q.zones[z], q.byZone[z], p.mint + k);
    NextIsUnused(db, p.mint, n, Planned(p, q, |q.order|)[i]);
  }

  /** A plan whose rows go through is recorded. */
  lemma EditAccepted(db: Db, p: Intent, q: Queue, n: nat, carried: Db)
    requires Integrity(db) && Editable(db, p, q, n) && WriteQueue(db, q) == Ok(carried)
    ensures WriteBatch(db, EditBatch(p, q)).Ok?
  {
    var b := EditBatch(p, q);
    WriteCarries(db, q);
    forall i | 0 <= i < |b.commits|
      ensures Recordable(carried, b, b.commits[i]) && Unused(carried.commits, b.commits[i])
    {
      PlannedRecordable(db, p, q, n, carried, i);
    }
    PlannedApart(p, q, |q.order|);
    CommitsAccepted(carried, b, b.commits);
  }

  /** So it is accepted if and only if its rows go through. */
  lemma EditAcceptedIff(db: Db, p: Intent, q: Queue, n: nat)
    requires Integrity(db) && Editable(db, p, q, n)
    ensures WriteBatch(db, EditBatch(p, q)).Ok? <==> WriteQueue(db, q).Ok?
  {
    if WriteQueue(db, q).Ok? { EditAccepted(db, p, q, n, WriteQueue(db, q).value); }
  }

  /** The zones once it is: each that was changed at its next serial. */
  ghost predicate MovedOn(db: Db, q: Queue, now: Db)
  {
    && now.zones.Keys == db.zones.Keys
    && forall z :: z in db.zones ==> now.zones[z] == if q.For(z).Empty() then db.zones[z] else Moved(db.zones[z])
  }

  lemma ZoneMoved(db: Db, p: Intent, q: Queue, n: nat, carried: Db, now: Db, z: ZoneId)
    requires Editable(db, p, q, n) && carried.zones == db.zones && z in db.zones && db.zones[z].id == z
    requires Recorded(carried, now, EditBatch(p, q), EditBatch(p, q).commits)
    ensures now.zones[z] == if q.For(z).Empty() then db.zones[z] else Moved(db.zones[z])
  {
    var b := EditBatch(p, q);
    var id := OwnCommit(p, q, z);
    if !q.For(z).Empty() {
      assert AsRead(db, q, z);
      assert q.For(z).soa.None?;
      var c := CommitFor(p, q.zones[z], q.byZone[z], id);
      EditCommitIs(p, q.zones[z], q.byZone[z], id);
      assert ZoneThrough(db.zones[z], b, [c]) == ZoneAfter(db.zones[z], b, c) by { assert [c][1..] == []; }
    }
  }

  lemma EditMovesOn(db: Db, p: Intent, q: Queue, n: nat, now: Db)
    requires Integrity(db) && Editable(db, p, q, n) && WriteBatch(db, EditBatch(p, q)) == Ok(now)
    ensures WriteQueue(db, q).Ok? && now.rows == WriteQueue(db, q).value.rows && Integrity(now)
    ensures MovedOn(db, q, now) && now.commits == db.commits + EditBatch(p, q).commits
  {
    var b := EditBatch(p, q);
    EditParts(db, p, q);
    var carried := WriteQueue(db, q).value;
    WriteCarries(db, q);
    CommitsRecorded(carried, b, b.commits);
    RecordKeepsIntegrity(carried, now, b, b.commits);
    forall z | z in db.zones
      ensures now.zones[z] == if q.For(z).Empty() then db.zones[z] else Moved(db.zones[z])
    {
      ZoneMoved(db, p, q, n, carried, now, z);
    }
  }

  /** And there is room for the next. */
  lemma EditLeavesRoom(db: Db, p: Intent, q: Queue, n: nat, now: Db)
    requires Editable(db, p, q, n) && MovedOn(db, q, now) && now.commits == db.commits + EditBatch(p, q).commits
    ensures Room(now, p.mint + |q.order|, n + 1)
  {
    forall i | 0 <= i < |now.commits|
      ensures now.commits[i].id < p.mint + |q.order| && Recent(now, now.commits[i], n + 1)
    {
      if i < |db.commits| {
        OldStaysRecent(db, p, q, n, now, i);
      } else {
        NewIsRecent(db, p, q, n, now, i - |db.commits|);
      }
    }
  }

  lemma OldStaysRecent(db: Db, p: Intent, q: Queue, n: nat, now: Db, i: nat)
    requires Editable(db, p, q, n) && MovedOn(db, q, now) && i < |db.commits|
    ensures db.commits[i].id < p.mint && Recent(now, db.commits[i], n + 1)
  {
    var c := db.commits[i];
    assert Recent(db, c, n);
    if c.zone in db.zones { OneFurther(c.serialTo, db.zones[c.zone].soa.serial, n); }
  }

  lemma NewIsRecent(db: Db, p: Intent, q: Queue, n: nat, now: Db, i: nat)
    requires Editable(db, p, q, n) && MovedOn(db, q, now) && i < |EditBatch(p, q).commits|
    ensures EditBatch(p, q).commits[i].id < p.mint + |q.order| && Recent(now, EditBatch(p, q).commits[i], n + 1)
  {
    var k := PlannedIs(p, q, |q.order|, i);
    var z := q.order[k];
    assert AsRead(db, q, z);
    assert q.For(z).soa.None?;
    EditCommitIs(p, q.zones[z], q.byZone[z], p.mint + k);
  }

  // -------------------------------------------------------------- added rows, in turn

  /** Rows that may be added one after another: new, valid, each in a zone, with a key
      nothing has, and after what they hang off. */
  ghost predicate Addable(db: Db, rs: seq<Record>)
  {
    && UniqueIds(rs)
    && (forall i :: 0 <= i < |rs| ==> AddableOne(db, rs[i]))
    && (forall i, j :: 0 <= i < j < |rs| && rs[i].zone == rs[j].zone ==> KeyOf(rs[i]) != KeyOf(rs[j]))
    && forall i :: 0 <= i < |rs| && rs[i].managedBy.Some? ==> rs[i].managedBy.value in db.rows.Keys + Ids(rs[..i])
  }

  ghost predicate AddableOne(db: Db, r: Record)
  {
    ValidRecord(r) && r.id !in db.rows && r.zone in db.zones && FreeKey(db.rows, r)
  }

  lemma AddableRest(db: Db, rs: seq<Record>, next: Db)
    requires Addable(db, rs) && rs != [] && next == db.(rows := db.rows[rs[0].id := rs[0]])
    ensures Addable(next, rs[1..])
  {
    var rest := rs[1..];
    forall i | 0 <= i < |rest|
      ensures AddableOne(next, rest[i])
    {
      assert rest[i] == rs[i + 1] && AddableOne(db, rs[i + 1]);
      assert rs[0].id != rs[i + 1].id;
    }
    forall i | 0 <= i < |rest| && rest[i].managedBy.Some?
      ensures rest[i].managedBy.value in next.rows.Keys + Ids(rest[..i])
    {
      assert rs[..i + 1][0] == rs[0] && rs[..i + 1][1..] == rest[..i];
      IdsCons(rs[..i + 1]);
    }
  }

  lemma {:induction false} InsertsAccepted(db: Db, rs: seq<Record>)
    requires Addable(db, rs)
    ensures InsertAll(db, rs).Ok?
    decreases |rs|
  {
    if rs != [] {
      assert AddableOne(db, rs[0]);
      assert rs[..0] == [];
      var next := InsertRecord(db, rs[0]).value;
      AddableRest(db, rs, next);
      InsertsAccepted(next, rs[1..]);
    }
  }

  // ------------------------------------------------------- a change of settings

  lemma ResettleAccepted(db: Db, m: Meta, asked: Zone, id: CommitId, n: nat)
    requires asked.id in db.zones && Room(db, id, n) && n < SERIAL_SPACE - 1
    requires ValidZone(Advanced(db.zones[asked.id], asked)) && FreeName(db.zones, asked)
    ensures WriteBatch(db, UpdateBatch(m, db.zones[asked.id], asked, id)).Ok?
  {
    var was := db.zones[asked.id];
    var z, b := Advanced(was, asked), UpdateBatch(m, was, asked, id);
    var c, housed := b.commits[0], db.(zones := db.zones[z.id := z]);
    assert b.ops[0].Id() == z.id && b.HasOp(c.zone);
    assert UpdateZone(db, z) == Ok(housed);
    assert b.ops[1..] == [] && b.commits[1..] == [];
    assert WriteOps(db, b.ops) == WriteOps(housed, b.ops[1..]);
    NoQueueWrites(housed);
    UpdateReplays(was, z, map[]);
    NextIsUnused(db, id, n, c);
    var recorded := housed.(commits := housed.commits + [c]);
    assert AppendCommit(housed, c) == Ok(recorded);
    assert WriteCommits(housed, b, b.commits) == WriteCommits(recorded, b, b.commits[1..]);
    assert WriteDrops(recorded, b.ops) == WriteDrops(recorded, b.ops[1..]);
  }

  lemma ResettleLeavesRoom(db: Db, m: Meta, asked: Zone, id: CommitId, n: nat, now: Db)
    requires Integrity(db) && asked.id in db.zones && Room(db, id, n) && n < SERIAL_SPACE - 1
    requires WriteBatch(db, UpdateBatch(m, db.zones[asked.id], asked, id)) == Ok(now)
    ensures Room(now, id + 1, n + 1) && now.rows == db.rows && now.zones == db.zones[asked.id := Advanced(db.zones[asked.id], asked)]
  {
    var was := db.zones[asked.id];
    var z := Advanced(was, asked);
    var c := UpdateCommit(m, was, z, id);
    UpdateParts(db, UpdateBatch(m, was, asked, id), z, c);
    forall i | 0 <= i < |now.commits|
      ensures now.commits[i].id < id + 1 && Recent(now, now.commits[i], n + 1)
    {
      if i < |db.commits| {
        assert Recent(db, db.commits[i], n);
        if db.commits[i].zone == asked.id { OneFurther(db.commits[i].serialTo, was.soa.serial, n); }
      }
    }
  }

  // ---------------------------------------------------------------- a zone, deleted

  ghost predicate Deletable(db: Db, p: Intent, f: ZoneId, q: Queue, id: CommitId, n: nat)
  {
    && f in db.zones && DepartureQueued(db, f, q) && Editable(db, p, q, n) && Room(db, id, n) && p.mint == id + 1
  }

  lemma LeadRecordable(db: Db, p: Intent, f: ZoneId, q: Queue, id: CommitId, n: nat, carried: Db)
    requires Integrity(db) && Deletable(db, p, f, q, id, n) && carried.zones == db.zones && carried.commits == db.commits
    ensures var c := DeleteCommit(p.meta, db.zones[f], id);
            Recordable(carried, DeleteBatch(p, db.zones[f], q, id), c) && Unused(carried.commits, c)
  {
    assert DeleteBatch(p, db.zones[f], q, id).ops[0].Id() == f;
    NextIsUnused(db, id, n, DeleteCommit(p.meta, db.zones[f], id));
  }

  lemma FollowRecordable(db: Db, p: Intent, f: ZoneId, q: Queue, id: CommitId, n: nat, carried: Db, i: nat)
    requires Integrity(db) && Deletable(db, p, f, q, id, n) && carried.zones == db.zones && carried.commits == db.commits
    requires i < |Planned(p, q, |q.order|)|
    ensures var c := Planned(p, q, |q.order|)[i];
            && Recordable(carried, DeleteBatch(p, db.zones[f], q, id), c) && Unused(carried.commits, c)
            && !SameSlot(DeleteCommit(p.meta, db.zones[f], id), c)
  {
    PlannedRecordable(db, p, q, n, carried, i);
    var k := PlannedIs(p, q, |q.order|, i);
    assert q.order[k] != f;
  }

  lemma DeletionRecorded(db: Db, p: Intent, f: ZoneId, q: Queue, id: CommitId, n: nat, carried: Db, b: Batch)
    requires Integrity(db) && Deletable(db, p, f, q, id, n) && carried.zones == db.zones && carried.commits == db.commits
    requires b == DeleteBatch(p, db.zones[f], q, id)
    ensures WriteCommits(carried, b, b.commits).Ok?
  {
    var lead, rest := DeleteCommit(p.meta, db.zones[f], id), Planned(p, q, |q.order|);
    LeadRecordable(db, p, f, q, id, n, carried);
    forall i | 0 <= i < |b.commits|
      ensures Recordable(carried, b, b.commits[i]) && Unused(carried.commits, b.commits[i])
      ensures i > 0 ==> !SameSlot(lead, b.commits[i])
    {
      if i > 0 { FollowRecordable(db, p, f, q, id, n, carried, i - 1); }
    }
    PlannedApart(p, q, |q.order|);
    forall i, j | 0 <= i < j < |b.commits|
      ensures !SameSlot(b.commits[i], b.commits[j])
    {
      if i > 0 { assert b.commits[i] == rest[i - 1] && b.commits[j] == rest[j - 1]; }
    }
    CommitsAccepted(carried, b, b.commits);
  }

  /** A deletion whose removals elsewhere go through is taken. */
  lemma DeletionAccepted(db: Db, p: Intent, f: ZoneId, q: Queue, id: CommitId, n: nat)
    requires Integrity(db) && Deletable(db, p, f, q, id, n) && WriteQueue(db, q).Ok?
    ensures WriteBatch(db, DeleteBatch(p, db.zones[f], q, id)).Ok?
  {
    var b, carried := DeleteBatch(p, db.zones[f], q, id), WriteQueue(db, q).value;
    WriteCarries(db, q);
    DeletionRecorded(db, p, f, q, id, n, carried, b);
    var recorded := WriteCommits(carried, b, b.commits).value;
    RecordKeepsIntegrity(carried, recorded, b, b.commits);
    assert b.ops[1..] == [];
    assert WriteOps(db, b.ops) == WriteOps(db, b.ops[1..]);
    assert WriteDrops(recorded, b.ops) == WriteDrops(DeleteZone(recorded, f).value, b.ops[1..]);
  }
}
