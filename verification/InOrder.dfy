/** A store whose zones are all in order stays so through every run, as long as each
    change is checked where it reaches. */
module InOrder {
  import opened Dns
  import opened Journal
  import opened Changes
  import opened Ordering
  import opened Store
  import opened Write
  import opened View
  import opened Carry
  import opened Batch
  import opened History
  import opened Upkeep
  import opened Runs
  import opened Queues
  import opened Departure
  import opened Reverse
  import opened Generation
  import opened Expansion
  import opened Lifetime
  import opened Validation
  import opened Accepted

  // ------------------------------------------------------- one zone, in one change

  /** Whatever the changes name is in order, with what a delegation there hides. */
  ghost predicate ZonePasses(cut: Cut, rs: set<Record>, c: Changes)
  {
    forall n :: NamedBy(c, n) ==> ReachOk(cut, rs, n)
  }

  ghost function NamesOf(c: Changes): set<Name>
  {
    (set r | r in c.deletes :: r.name) + (set u | u in c.updates :: u.before.name) +
    (set u | u in c.updates :: u.after.name) + (set r | r in c.inserts :: r.name)
  }

  lemma NamesAreNamed(c: Changes)
    ensures InStep(c.(touched := NamesOf(c)))
  {
    var d := c.(touched := NamesOf(c));
    forall n
      ensures n in d.touched <==> NamedBy(d, n)
    {
    }
  }

  lemma {:induction false} InSomeOrder(names: set<Name>) returns (ns: seq<Name>)
    ensures forall n :: n in ns <==> n in names
    decreases names
  {
    if names == {} {
      ns := [];
    } else {
      var n :| n in names;
      var rest := InSomeOrder(names - {n});
      ns := rest + [n];
    }
  }

  lemma PassesIff(cut: Cut, before: set<Record>, after: set<Record>, c: Changes, names: seq<Name>)
    requires WholeZoneOk(cut, before) && Touches(before, after, names) && forall n :: n in names <==> NamedBy(c, n)
    ensures WholeZoneOk(cut, after) <==> ZonePasses(cut, after, c)
  {
    ReachedIff(cut, before, after, names);
  }

  lemma ReplacedTouches(was: Rows, now: Rows, z: ZoneId, c: Changes) returns (names: seq<Name>)
    requires RowsOk(was) && RowsOk(now) && Replaced(was, now, z, Leaving(c), Arriving(c))
    ensures Touches(RecordsIn(was, z), RecordsIn(now, z), names) && forall n :: n in names <==> NamedBy(c, n)
  {
    var d := c.(touched := NamesOf(c));
    NamesAreNamed(c);
    names := InSomeOrder(d.touched);
    assert Leaving(d) == Leaving(c) && Arriving(d) == Arriving(c);
    TouchedBounds(was, now, z, d, names);
    assert forall n :: NamedBy(d, n) <==> NamedBy(c, n);
  }

  lemma ReplacedOkIff(cut: Cut, was: Rows, now: Rows, z: ZoneId, c: Changes)
    requires RowsOk(was) && RowsOk(now) && Replaced(was, now, z, Leaving(c), Arriving(c)) && WholeZoneOk(cut, RecordsIn(was, z))
    ensures WholeZoneOk(cut, RecordsIn(now, z)) <==> ZonePasses(cut, RecordsIn(now, z), c)
  {
    var names := ReplacedTouches(was, now, z, c);
    PassesIff(cut, RecordsIn(was, z), RecordsIn(now, z), c, names);
  }

  // -------------------------------------------------------- every zone, in one change

  /** The check of a zone by its name, which never changes. */
  type Cuts = Name -> Cut

  ghost predicate AllOk(cut: Cuts, db: Db)
  {
    forall z :: z in db.zones ==> OkAt(cut, db, z)
  }

  ghost predicate OkAt(cut: Cuts, db: Db, z: ZoneId)
    requires z in db.zones
  {
    WholeZoneOk(cut(db.zones[z].name), RecordsIn(db.rows, z))
  }

  ghost predicate Passes(cut: Cuts, db: Db, q: Queue)
  {
    forall z :: z in db.zones ==> PassesAt(cut, db, q, z)
  }

  ghost predicate PassesAt(cut: Cuts, db: Db, q: Queue, z: ZoneId)
    requires z in db.zones
  {
    ZonePasses(cut(db.zones[z].name), RecordsIn(db.rows, z), q.For(z))
  }

  lemma {:induction false} SameName(z: Zone, b: Batch, cs: seq<Commit>)
    ensures ZoneThrough(z, b, cs).name == z.name
    decreases |cs|
  {
    if cs != [] { SameName(ZoneAfter(z, b, cs[0]), b, cs[1..]); }
  }

  /** Where a write spares what a zone is not asked for, the zone stays in order if and
      only if what it was asked for is. */
  lemma WroteOkIff(cut: Cuts, was: Db, carried: Db, now: Db, b: Batch, z: ZoneId)
    requires Integrity(was) && WellQueued(was.rows, b.queue) && Wrote(was, carried, now, b)
    requires Spares(was.rows, b.queue, z, Gone(was, b.queue)) && z in was.zones && OkAt(cut, was, z)
    ensures z in now.zones && (OkAt(cut, now, z) <==> PassesAt(cut, now, b.queue, z))
  {
    WriteCarries(was, b.queue);
    CommitsRecorded(carried, b, b.commits);
    SameName(was.zones[z], b, Of(b.commits, z));
    var mid :| CarriedBy(was.rows, mid, carried.rows, b.queue, Gone(was, b.queue));
    CarriedReplaces(was.rows, mid, carried.rows, b.queue, Gone(was, b.queue), z);
    ReplacedOkIff(cut(was.zones[z].name), was.rows, now.rows, z, b.queue.For(z));
  }

  lemma WroteAllOkIff(cut: Cuts, was: Db, carried: Db, now: Db, b: Batch)
    requires Integrity(was) && WellQueued(was.rows, b.queue) && Wrote(was, carried, now, b) && AllOk(cut, was)
    requires Closed(was.rows, Ids(AllDeletes(b.queue)))
    ensures AllOk(cut, now) <==> Passes(cut, now, b.queue)
  {
    WriteCarries(was, b.queue);
    CommitsRecorded(carried, b, b.commits);
    ClosedIffNoMore(was.rows, Ids(AllDeletes(b.queue)));
    forall z | z in now.zones
      ensures OkAt(cut, now, z) <==> PassesAt(cut, now, b.queue, z)
    {
      WroteOkIff(cut, was, carried, now, b, z);
    }
  }

  /** A plan carried out that kept the law. */
  lemma EditOkIff(cut: Cuts, db: Db, p: Intent, q: Queue, next: Db)
    requires Lawful(db) && Lawful(next) && WellPlanned(db, q) && p.kind != ZoneCreate && WriteBatch(db, EditBatch(p, q)) == Ok(next)
    requires AllOk(cut, db)
    ensures AllOk(cut, next) <==> Passes(cut, next, q)
  {
    EditLawfulIff(db, p, q);
    EditParts(db, p, q);
    WroteAllOkIff(cut, db, WriteQueue(db, q).value, next, EditBatch(p, q));
  }

  // ------------------------------------------------------------- a zone, deleted

  lemma ElsewhereSame(recorded: Db, f: ZoneId, now: Db, z: ZoneId)
    requires DeleteZone(recorded, f) == Ok(now) && z != f && z in recorded.zones
    requires Cascade(recorded.rows, InZone(recorded.rows, f)) == InZone(recorded.rows, f)
    ensures z in now.zones && now.zones[z] == recorded.zones[z] && RecordsIn(now.rows, z) == RecordsIn(recorded.rows, z)
  {
    forall id | id in recorded.rows && recorded.rows[id].zone == z
      ensures id in now.rows && now.rows[id] == recorded.rows[id]
    {
      assert id !in InZone(recorded.rows, f);
    }
  }

  lemma DepartureSpares(db: Db, f: ZoneId, q: Queue, z: ZoneId)
    requires DepartureQueued(db, f, q) && Shallow(db.rows, f) && z != f
    ensures Spares(db.rows, q, z, Gone(db, q))
  {
    ShallowIffCascade(db.rows, f);
  }

  lemma DepartureOkIff(cut: Cuts, db: Db, p: Intent, f: ZoneId, q: Queue, id: CommitId, next: Db)
    requires Lawful(db) && Lawful(next) && f in db.zones && DepartureQueued(db, f, q) && p.kind == Edit
    requires WriteBatch(db, DeleteBatch(p, db.zones[f], q, id)) == Ok(next) && AllOk(cut, db)
    ensures AllOk(cut, next) <==> Passes(cut, next, q)
  {
    DeleteLawfulIff(db, p, f, q, id);
    var carried, recorded := DeleteLeaves(db, p, f, q, id);
    DropLeaves(recorded, f, next);
    forall z | z in next.zones
      ensures OkAt(cut, next, z) <==> PassesAt(cut, next, q, z)
    {
      DepartureSpares(db, f, q, z);
      WroteOkIff(cut, db, carried, recorded, DeleteBatch(p, db.zones[f], q, id), z);
      ElsewhereSame(recorded, f, next, z);
    }
  }

  // ------------------------------------------------------------- a zone, created

  function AllOf(rs: seq<Record>): set<Record>
  {
    set r | r in rs
  }

  lemma FoundedTouches(was: Rows, now: Rows, z: ZoneId, c: Changes, d: Changes, names: seq<Name>)
    requires RowsOk(now) && Replaced(was, now, z, Leaving(d), Arriving(d)) && (forall id :: id in was ==> was[id].zone != z)
    requires d.deletes == [] && d.updates == [] && c.inserts <= d.inserts && forall n :: n in names <==> NamedBy(d, n)
    ensures Touches(AllOf(c.inserts), RecordsIn(now, z), names)
  {
    assert Leaving(d) == [] && Arriving(d) == d.inserts;
    forall r
      ensures r in RecordsIn(now, z) <==> r in d.inserts
    {
      assert !Rest(was, z, Leaving(d), r.id);
      assert !Rest(now, z, Arriving(d), r.id);
      IdsOf(d.inserts, r.id);
    }
    assert forall r :: r in c.inserts ==> r in d.inserts;
  }

  lemma FoundedOkIff(cut: Cut, was: Rows, now: Rows, z: ZoneId, c: Changes, d: Changes)
    requires RowsOk(now) && Replaced(was, now, z, Leaving(d), Arriving(d)) && (forall id :: id in was ==> was[id].zone != z)
    requires d.deletes == [] && d.updates == [] && c.inserts <= d.inserts && WholeZoneOk(cut, AllOf(c.inserts))
    ensures WholeZoneOk(cut, RecordsIn(now, z)) <==> ZonePasses(cut, RecordsIn(now, z), d)
  {
    var names := AllNames(d);
    FoundedTouches(was, now, z, c, d, names);
    PassesIff(cut, AllOf(c.inserts), RecordsIn(now, z), d, names);
  }

  lemma AllNames(c: Changes) returns (names: seq<Name>)
    ensures forall n :: n in names <==> NamedBy(c, n)
  {
    var d := c.(touched := NamesOf(c));
    NamesAreNamed(c);
    names := InSomeOrder(d.touched);
    assert forall n :: NamedBy(d, n) <==> NamedBy(c, n);
  }

  lemma FoundingMoves(w: World, policy: Policy, z: Zone, c: Changes, next: Queue)
    requires Founds(z.id, c) && Expanded(w, policy, Put(NO_QUEUE, z, c), z.id, next)
    ensures var d := next.For(z.id); d.deletes == [] && d.updates == [] && c.inserts <= d.inserts
    ensures Closed(w.db.rows, Ids(AllDeletes(next)))
  {
    FoundingRemovesNothing(w, policy, z, c, next);
    PutProper(NO_QUEUE, z, c);
    assert KeepsIn(c, next.For(z.id));
    var d := next.For(z.id);
    if d.deletes != [] {
      RemovesIs(next, d.deletes[0]);
      IdsOf(AllDeletes(next), d.deletes[0].id);
    }
  }

  lemma CreatedReplaces(was: Db, carried: Db, q: Queue, z: ZoneId)
    requires Integrity(was) && WellQueued(was.rows, q) && WriteQueue(was, q) == Ok(carried) && Closed(was.rows, Ids(AllDeletes(q)))
    ensures Replaced(was.rows, carried.rows, z, Leaving(q.For(z)), Arriving(q.For(z))) && Integrity(carried)
    ensures Spares(was.rows, q, z, Gone(was, q))
  {
    WriteCarries(was, q);
    ClosedIffNoMore(was.rows, Ids(AllDeletes(q)));
    var mid :| CarriedBy(was.rows, mid, carried.rows, q, Gone(was, q));
    CarriedReplaces(was.rows, mid, carried.rows, q, Gone(was, q), z);
  }

  ghost predicate Creates(cut: Cuts, housed: Db, carried: Db, next: Db, b: Batch, z: Zone, c: Changes)
  {
    && Integrity(housed) && z.id in housed.zones && housed.zones[z.id] == z && WellQueued(housed.rows, b.queue)
    && Wrote(housed, carried, next, b) && Closed(housed.rows, Ids(AllDeletes(b.queue)))
    && (forall id :: id in housed.rows ==> housed.rows[id].zone != z.id)
    && (var d := b.queue.For(z.id); d.deletes == [] && d.updates == [] && c.inserts <= d.inserts)
    && WholeZoneOk(cut(z.name), AllOf(c.inserts)) && forall y :: y in housed.zones && y != z.id ==> OkAt(cut, housed, y)
  }

  lemma CreatedHereIff(cut: Cuts, housed: Db, carried: Db, next: Db, b: Batch, z: Zone, c: Changes)
    requires Creates(cut, housed, carried, next, b, z, c)
    ensures z.id in next.zones && (OkAt(cut, next, z.id) <==> PassesAt(cut, next, b.queue, z.id))
  {
    CreatedReplaces(housed, carried, b.queue, z.id);
    CreatedNamed(housed, carried, next, b, z.id);
    FoundedOkIff(cut(z.name), housed.rows, next.rows, z.id, c, b.queue.For(z.id));
  }

  lemma CreatedNamed(housed: Db, carried: Db, next: Db, b: Batch, z: ZoneId)
    requires Integrity(housed) && Wrote(housed, carried, next, b) && z in housed.zones
    ensures next.zones.Keys == housed.zones.Keys && next.rows == carried.rows && next.zones[z].name == housed.zones[z].name
  {
    WriteCarries(housed, b.queue);
    CommitsRecorded(carried, b, b.commits);
    SameName(housed.zones[z], b, Of(b.commits, z));
  }

  lemma CreatedOkIff(cut: Cuts, housed: Db, carried: Db, next: Db, b: Batch, z: Zone, c: Changes)
    requires Creates(cut, housed, carried, next, b, z, c)
    ensures AllOk(cut, next) <==> Passes(cut, next, b.queue)
  {
    CreatedNamed(housed, carried, next, b, z.id);
    CreatedHereIff(cut, housed, carried, next, b, z, c);
    forall y | y in next.zones && y != z.id
      ensures OkAt(cut, next, y) <==> PassesAt(cut, next, b.queue, y)
    {
      CreatedReplaces(housed, carried, b.queue, y);
      WroteOkIff(cut, housed, carried, next, b, y);
    }
  }

  lemma FoundingOkIff(cut: Cuts, db: Db, w: World, policy: Policy, p: Intent, z: Zone, c: Changes, q: Queue, next: Db)
    requires Lawful(db) && PlannedOn(db, Created(w, policy, p, z, c, q)) && WriteBatch(db, CreateBatch(p, z, q)) == Ok(next)
    requires AllOk(cut, db) && WholeZoneOk(cut(z.name), AllOf(c.inserts))
    ensures AllOk(cut, next) <==> Passes(cut, next, q)
  {
    var carried := FoundingCreates(cut, db, w, policy, p, z, c, q, next);
    CreatedOkIff(cut, Housing(db, z), carried, next, CreateBatch(p, z, q), z, c);
  }

  lemma HousedOk(cut: Cuts, db: Db, z: Zone)
    requires Integrity(db) && z.id !in db.zones && AllOk(cut, db)
    ensures var housed := Housing(db, z);
            && (forall id :: id in housed.rows ==> housed.rows[id].zone != z.id)
            && forall y :: y in housed.zones && y != z.id ==> OkAt(cut, housed, y)
  {
    forall y | y in Housing(db, z).zones && y != z.id
      ensures OkAt(cut, Housing(db, z), y)
    {
      assert OkAt(cut, db, y);
    }
  }

  lemma FoundingCreates(cut: Cuts, db: Db, w: World, policy: Policy, p: Intent, z: Zone, c: Changes, q: Queue, next: Db) returns (carried: Db)
    requires Integrity(db) && w.db == Housing(db, z) && Founds(z.id, c) && Expanded(w, policy, Put(NO_QUEUE, z, c), z.id, q)
    requires q.Proper() && WriteBatch(db, CreateBatch(p, z, q)) == Ok(next) && AllOk(cut, db) && WholeZoneOk(cut(z.name), AllOf(c.inserts))
    ensures Creates(cut, Housing(db, z), carried, next, CreateBatch(p, z, q), z, c)
  {
    CreateParts(db, p, z, q);
    carried := WriteQueue(Housing(db, z), q).value;
    HousingKeeps(db, z);
    HousedOk(cut, db, z);
    FoundingMoves(w, policy, z, c, q);
  }

  // -------------------------------------------------------------- any change, any run

  ghost function QueueOf(ch: Change): Queue
  {
    match ch
    case Edited(_, _, _, _, _, _, next) => next
    case RolledTo(_, _, _, _, _, _, _, _, next) => next
    case Refilled(_, _, _, _, _, q, _) => q
    case Created(_, _, _, _, _, next) => next
    case Resettled(_, _, _) => NO_QUEUE
    case Deleted(_, _, q, _) => q
  }

  /** A zone is created with records that are in order among themselves. */
  ghost predicate Founded(cut: Cuts, ch: Change)
  {
    ch.Created? ==> WholeZoneOk(cut(ch.z.name), AllOf(ch.c.inserts))
  }

  lemma SettingsOk(cut: Cuts, db: Db, next: Db, z: Zone)
    requires z.id in db.zones && next.rows == db.rows && next.zones == db.zones[z.id := z] && z.name == db.zones[z.id].name
    requires AllOk(cut, db)
    ensures AllOk(cut, next) && Passes(cut, next, NO_QUEUE)
  {
    forall y | y in next.zones
      ensures OkAt(cut, next, y)
    {
      assert OkAt(cut, db, y);
    }
  }

  lemma ResettledOk(cut: Cuts, db: Db, m: Meta, asked: Zone, id: CommitId, next: Db)
    requires asked.id in db.zones && asked.name == db.zones[asked.id].name && AllOk(cut, db)
    requires WriteBatch(db, UpdateBatch(m, db.zones[asked.id], asked, id)) == Ok(next)
    ensures AllOk(cut, next) && Passes(cut, next, NO_QUEUE)
  {
    var was := db.zones[asked.id];
    var z := Advanced(was, asked);
    UpdateParts(db, UpdateBatch(m, was, asked, id), z, UpdateCommit(m, was, z, id));
    SettingsOk(cut, db, next, z);
  }

  /** A change that keeps the law leaves every zone in order if and only if each is
      where the change reaches. */
  lemma TakenOkIff(cut: Cuts, db: Db, ch: Change, next: Db)
    requires Lawful(db) && Lawful(next) && Taken(db, ch, next) && AllOk(cut, db) && Founded(cut, ch)
    ensures AllOk(cut, next) <==> Passes(cut, next, QueueOf(ch))
  {
    match ch
    case Edited(w, policy, p, src, ops, sets, q) =>
      AskedCommands(w, policy, src, ops, sets, q);
      CommandLawfulIff(w, policy, p, src, ChangesOf(db, src, ops, sets), q, next);
      EditOkIff(cut, db, p, q, next);
    case RolledTo(w, policy, p, src, kept, first, mint, c, q) => EditOkIff(cut, db, p, q, next);
    case Refilled(w, policy, p, sources, first, q, mint) => EditOkIff(cut, db, p, q, next);
    case Created(w, policy, p, z, c, q) => FoundingOkIff(cut, db, w, policy, p, z, c, q, next);
    case Resettled(m, asked, id) => ResettledOk(cut, db, m, asked, id, next);
    case Deleted(p, f, q, id) => DepartureOkIff(cut, db, p, f, q, id, next);
  }

  /** A run whose changes are checked where they reach. */
  ghost predicate CheckedRun(cut: Cuts, states: seq<Db>, changes: seq<Change>)
  {
    && TidyRun(states, changes)
    && forall k :: 0 <= k < |changes| ==> Checked(cut, states[k], changes[k], states[k + 1])
  }

  ghost predicate Checked(cut: Cuts, db: Db, ch: Change, next: Db)
  {
    Taken(db, ch, next) ==> Founded(cut, ch) && Passes(cut, next, QueueOf(ch))
  }

  lemma CheckedKeeps(cut: Cuts, db: Db, ch: Change, next: Db)
    requires Lawful(db) && Lawful(next) && Lifetime.Step(db, ch, next) && Checked(cut, db, ch, next) && AllOk(cut, db)
    ensures AllOk(cut, next)
  {
    if Taken(db, ch, next) { TakenOkIff(cut, db, ch, next); }
  }

  lemma CheckedStep(cut: Cuts, states: seq<Db>, changes: seq<Change>, k: nat, i: nat)
    requires CheckedRun(cut, states, changes) && i == k + 1 < |states| && AllOk(cut, states[k])
    ensures AllOk(cut, states[i])
  {
    EveryRunLawful(states, changes, k);
    EveryRunLawful(states, changes, i);
    CheckedKeeps(cut, states[k], changes[k], states[k + 1]);
  }

  lemma StartsInOrder(cut: Cuts, db: Db)
    requires db.zones == map[]
    ensures AllOk(cut, db)
  {
  }

  ghost predicate KeptInOrder(cut: Cuts, states: seq<Db>)
  {
    forall k :: 0 < k < |states| && AllOk(cut, states[k - 1]) ==> AllOk(cut, states[k])
  }

  lemma CheckedRunKeeps(cut: Cuts, states: seq<Db>, changes: seq<Change>)
    requires CheckedRun(cut, states, changes)
    ensures KeptInOrder(cut, states)
  {
    forall k | 0 < k < |states| && AllOk(cut, states[k - 1])
      ensures AllOk(cut, states[k])
    {
      CheckedStep(cut, states, changes, k - 1, k);
    }
  }

  lemma {:induction false} KeptThroughout(cut: Cuts, states: seq<Db>, i: nat)
    requires KeptInOrder(cut, states) && i < |states| && AllOk(cut, states[0])
    ensures AllOk(cut, states[i])
  {
    if i > 0 { KeptThroughout(cut, states, i - 1); }
  }

  /** In every state of such a run every zone is in order, all of it. */
  lemma EveryRunInOrder(cut: Cuts, states: seq<Db>, changes: seq<Change>, i: nat)
    requires CheckedRun(cut, states, changes) && i < |states|
    ensures AllOk(cut, states[i])
  {
    StartsInOrder(cut, states[0]);
    CheckedRunKeeps(cut, states, changes);
    KeptThroughout(cut, states, i);
  }
}
