/** Whole runs of the write path, from an empty store on. */
module Lifetime {
  import opened Dns
  import opened Journal
  import opened Changes
  import opened Ordering
  import opened Store
  import opened Write
  import opened Carry
  import opened Batch
  import opened History
  import opened Upkeep
  import opened Runs
  import opened Queues
  import opened Departure
  import opened Reverse
  import opened Generation
  import opened Expansion
  import opened Upshot
  import opened Command
  import opened Reconcile
  import opened Again
  import opened Provenance
  import opened Restoring

  // ------------------------------------------------------ reconciling, traced

  lemma PassTraced(w: World, policy: Policy, sources: seq<Record>, first: RecordId, q: Queue, mint: RecordId, now: Db)
    requires Integrity(w.db) && Sources(w.db.rows, sources) && WholePass(w, policy, sources, first, q, mint) && Traced(w.db.rows)
    requires WriteQueue(w.db, q) == Ok(now)
    ensures Traced(now.rows)
  {
    var rows, gone := w.db.rows, Overtaken(w, sources, |sources|);
    PassCarried(w, policy, sources, first, q, mint);
    GoneClosed(w, sources, |sources|);
    forall id | id in now.rows && now.rows[id].managedBy.Some? && now.rows[id].managedBy.value in now.rows
      ensures CanGenerate(now.rows[now.rows[id].managedBy.value].typ)
    {
      if id in rows - gone {
        assert id !in Below(rows, gone);
        assert rows[id].managedBy.value in rows - gone;
      } else {
        PassAddedTraced(w, policy, sources, first, q, mint, now.rows, now.rows[id]);
      }
    }
  }

  lemma PassAddedTraced(w: World, policy: Policy, sources: seq<Record>, first: RecordId, q: Queue, mint: RecordId, now: Rows, r: Record)
    requires Sources(w.db.rows, sources) && WholePass(w, policy, sources, first, q, mint)
    requires After(w.db.rows, Overtaken(w, sources, |sources|), q, now) && Adds(q, r)
    ensures r.managedBy.Some? && r.managedBy.value in now && CanGenerate(now[r.managedBy.value].typ)
  {
    assert Expected(w, policy, sources, |sources|, q, r);
    if k :| 0 <= k < |sources| && Earns(w, policy, sources, k, r) {
      GoneStored(w, sources, |sources|);
      assert sources[k] in sources;
      assert sources[k].id in w.db.rows - Overtaken(w, sources, |sources|);
    } else {
      var e :| Adds(q, e) && e.typ == PTR && r.managedBy == Some(e.id);
    }
  }

  // --------------------------------------------------------------- the changes

  /** What expansion makes of a command's changes to one zone. */
  ghost predicate Expands(w: World, policy: Policy, src: ZoneId, c: Changes, next: Queue)
  {
    src in w.db.zones && next.Proper() &&
    if NoClash(w, src, c) then Expanded(w, policy, Put(NO_QUEUE, w.db.zones[src], c), src, next)
    else WriteQueue(w.db, next).Err?
  }

  datatype Change =
    | Edited(w: World, policy: Policy, p: Intent, src: ZoneId, ops: seq<RecordOp>, sets: RRsetKey -> seq<Record>, next: Queue)
    | RolledTo(w: World, policy: Policy, p: Intent, src: ZoneId, kept: nat, first: RecordId, mint: RecordId, ch: Changes, next: Queue)
    | Refilled(w: World, policy: Policy, p: Intent, sources: seq<Record>, first: RecordId, q: Queue, mint: RecordId)
    | Created(w: World, policy: Policy, p: Intent, z: Zone, c: Changes, next: Queue)
    | Resettled(m: Meta, asked: Zone, id: CommitId)
    | Deleted(p: Intent, f: ZoneId, q: Queue, id: CommitId)

  /** Operations on records of one zone, well formed and resolved in order, that name
      no row twice. */
  ghost predicate Asks(db: Db, src: ZoneId, ops: seq<RecordOp>, sets: RRsetKey -> seq<Record>)
  {
    && src in db.zones
    && (forall i :: 0 <= i < |ops| ==> ValidOp(src, ops[i]))
    && (forall key :: ListsSet(db.rows, src, key, sets(key)))
    && var r := ResolvedAll(db, db.zones[src], NO_CHANGES, ops, sets);
       r.Ok? && UniqueIds(Leaving(r.value))
  }

  ghost function ChangesOf(db: Db, src: ZoneId, ops: seq<RecordOp>, sets: RRsetKey -> seq<Record>): Changes
    requires Asks(db, src, ops, sets)
  {
    ResolvedAll(db, db.zones[src], NO_CHANGES, ops, sets).value
  }

  /** A zone's first records, all written by hand. */
  ghost predicate Founds(z: ZoneId, c: Changes)
  {
    && c.deletes == [] && c.updates == [] && c.inserts != [] && c.soa.None? && c.claims == []
    && forall r :: r in c.inserts ==> r.zone == z && r.managedBy.None? && r.managedKind.None?
  }

  /** Planned against the store as it stands, by one of the planners. */
  ghost predicate PlannedOn(db: Db, ch: Change)
  {
    match ch
    case Edited(w, policy, p, src, ops, sets, next) =>
      w.db == db && p.kind != ZoneCreate && Asks(db, src, ops, sets) && Expands(w, policy, src, ChangesOf(db, src, ops, sets), next)
    case RolledTo(w, policy, p, src, kept, first, mint, c, next) =>
      w.db == db && p.kind != ZoneCreate && RollingBack(w, policy, src, kept, first, mint, c, next)
    case Refilled(w, policy, p, sources, first, q, mint) =>
      && w.db == db && p.kind != ZoneCreate && Sources(db.rows, sources) && WholePass(w, policy, sources, first, q, mint)
      && forall s :: s in sources ==> w.Automates(s.zone)
    case Created(w, policy, p, z, c, next) =>
      && w.db == Housing(db, z) && z.id !in db.zones && Of(db.commits, z.id) == [] && p.kind == ZoneCreate && p.primary == z.id
      && Founds(z.id, c) && Expanded(w, policy, Put(NO_QUEUE, z, c), z.id, next)
    case Resettled(m, asked, id) =>
      asked.id in db.zones && asked.name == db.zones[asked.id].name
    case Deleted(p, f, q, id) =>
      f in db.zones && p.kind == Edit && DepartureQueued(db, f, q)
  }

  ghost function BatchOf(db: Db, ch: Change): Batch
    requires PlannedOn(db, ch)
  {
    match ch
    case Edited(_, _, p, _, _, _, next) => EditBatch(p, next)
    case RolledTo(_, _, p, _, _, _, _, _, next) => EditBatch(p, next)
    case Refilled(_, _, p, _, _, q, _) => EditBatch(p, q)
    case Created(_, _, p, z, _, next) => CreateBatch(p, z, next)
    case Resettled(m, asked, id) => UpdateBatch(m, db.zones[asked.id], asked, id)
    case Deleted(p, f, q, id) => DeleteBatch(p, db.zones[f], q, id)
  }

  /** A change the store accepts. */
  ghost predicate Taken(db: Db, ch: Change, next: Db)
  {
    PlannedOn(db, ch) && WriteBatch(db, BatchOf(db, ch)) == Ok(next)
  }

  // --------------------------------------------------- what each needs, exactly

  /** Removals take along nothing they do not look for. */
  ghost predicate Sparing(db: Db, ch: Change)
    requires PlannedOn(db, ch)
  {
    match ch
    case Edited(w, _, _, src, ops, sets, _) => Known(db.rows, ChangesOf(db, src, ops, sets).deletes, w.Automates(src))
    case RolledTo(w, _, _, src, _, _, _, c, _) => Known(db.rows, c.deletes, w.Automates(src))
    case Deleted(_, f, _, _) => Shallow(db.rows, f)
    case _ => true
  }

  ghost predicate Commands(w: World, policy: Policy, src: ZoneId, c: Changes, next: Queue)
  {
    Expands(w, policy, src, c, next) && Commanded(w.db, Put(NO_QUEUE, w.db.zones[src], c), src)
  }

  lemma CommandLawfulIff(w: World, policy: Policy, p: Intent, src: ZoneId, c: Changes, next: Queue, now: Db)
    requires Lawful(w.db) && p.kind != ZoneCreate && Commands(w, policy, src, c, next) && WriteBatch(w.db, EditBatch(p, next)) == Ok(now)
    ensures NoClash(w, src, c)
    ensures Lawful(now) <==> Known(w.db.rows, c.deletes, w.Automates(src))
  {
    OnePut(w.db.zones[src], c);
    EditParts(w.db, p, next);
    ExpandedLawfulIff(w, policy, p, Put(NO_QUEUE, w.db.zones[src], c), src, next);
  }

  lemma AskedCommands(w: World, policy: Policy, src: ZoneId, ops: seq<RecordOp>, sets: RRsetKey -> seq<Record>, next: Queue)
    requires Integrity(w.db) && Asks(w.db, src, ops, sets) && Expands(w, policy, src, ChangesOf(w.db, src, ops, sets), next)
    ensures Commands(w, policy, src, ChangesOf(w.db, src, ops, sets), next)
  {
    CommandedIff(w.db, w.db.zones[src], ops, sets);
  }

  lemma EditedLawfulIff(w: World, policy: Policy, p: Intent, src: ZoneId, ops: seq<RecordOp>, sets: RRsetKey -> seq<Record>, c: Changes, q: Queue, now: Db)
    requires Lawful(w.db) && p.kind != ZoneCreate && Asks(w.db, src, ops, sets) && c == ChangesOf(w.db, src, ops, sets)
    requires Expands(w, policy, src, c, q) && WriteBatch(w.db, EditBatch(p, q)) == Ok(now)
    ensures Lawful(now) <==> Known(w.db.rows, c.deletes, w.Automates(src))
    ensures c.deletes == [] ==> Lawful(now)
  {
    AskedCommands(w, policy, src, ops, sets, q);
    CommandLawfulIff(w, policy, p, src, c, q, now);
  }

  lemma RollbackCommands(w: World, policy: Policy, src: ZoneId, kept: nat, first: RecordId, mint: RecordId, ch: Changes, next: Queue)
    requires RollingBack(w, policy, src, kept, first, mint, ch, next)
    ensures Commands(w, policy, src, ch, next)
  {
    UndoneCommanded(w.db, src, kept, first, mint, ch);
    UndoneNoClash(w, src, kept, first, mint, ch);
  }

  lemma FoundingRemovesNothing(w: World, policy: Policy, z: Zone, c: Changes, next: Queue)
    requires Founds(z.id, c) && Expanded(w, policy, Put(NO_QUEUE, z, c), z.id, next)
    ensures Ids(AllDeletes(next)) == {} && Closed(w.db.rows, Ids(AllDeletes(next)))
  {
    OnePut(z, c);
    assert Roots(c) == {};
    CascadeIsLeast(w.db.rows, {}, {});
  }

  lemma FoundingPlanned(db: Db, w: World, policy: Policy, p: Intent, z: Zone, c: Changes, next: Queue)
    requires Integrity(db) && w.db == Housing(db, z) && z.id !in db.zones && Of(db.commits, z.id) == []
    requires p.kind == ZoneCreate && p.primary == z.id && Founds(z.id, c) && Expanded(w, policy, Put(NO_QUEUE, z, c), z.id, next)
    ensures CreationPlanned(db, p, z, next)
  {
    OnePut(z, c);
    assert KeepsIn(c, next.For(z.id));
    assert next.For(z.id).inserts[0] == c.inserts[0];
    assert AsRead(w.db, next, z.id);
    forall y | y in next.byZone && y != z.id
      ensures AsRead(db, next, y)
    {
      assert AsRead(w.db, next, y);
    }
  }

  lemma FoundingKeepsLaw(db: Db, w: World, policy: Policy, p: Intent, z: Zone, c: Changes, next: Queue, now: Db)
    requires Lawful(db) && PlannedOn(db, Created(w, policy, p, z, c, next)) && WriteBatch(db, CreateBatch(p, z, next)) == Ok(now)
    ensures Lawful(now)
  {
    FoundingPlanned(db, w, policy, p, z, c, next);
    FoundingRemovesNothing(w, policy, z, c, next);
    CreateKeepsLaw(db, p, z, next);
  }

  /** An accepted change keeps the law if and only if its removals take along nothing
      they do not look for. */
  lemma TakenLawfulIff(db: Db, ch: Change, next: Db)
    requires Lawful(db) && Taken(db, ch, next)
    ensures Lawful(next) <==> Sparing(db, ch)
  {
    match ch
    case Edited(w, policy, p, src, ops, sets, q) => EditedLawfulIff(w, policy, p, src, ops, sets, ChangesOf(db, src, ops, sets), q, next);
    case RolledTo(w, policy, p, src, kept, first, mint, c, q) =>
      RollbackCommands(w, policy, src, kept, first, mint, c, q);
      CommandLawfulIff(w, policy, p, src, c, q, next);
    case Refilled(w, policy, p, sources, first, q, mint) => PassKeepsLaw(w, policy, sources, first, q, mint, p);
    case Created(w, policy, p, z, c, q) => FoundingKeepsLaw(db, w, policy, p, z, c, q, next);
    case Resettled(m, asked, id) => UpdateKeepsLaw(db, m, asked, id);
    case Deleted(p, f, q, id) => DeleteLawfulIff(db, p, f, q, id);
  }

  // ------------------------------------------------- provenance, change by change

  lemma EditedRows(db: Db, p: Intent, q: Queue, now: Db)
    requires Integrity(db) && q.Proper() && WriteBatch(db, EditBatch(p, q)) == Ok(now)
    ensures WriteQueue(db, q).Ok? && now.rows == WriteQueue(db, q).value.rows
  {
    EditParts(db, p, q);
    WriteCarries(db, q);
    RecordKeepsIntegrity(WriteQueue(db, q).value, now, EditBatch(p, q), EditBatch(p, q).commits);
  }

  lemma CommandTracedIff(w: World, policy: Policy, p: Intent, src: ZoneId, c: Changes, next: Queue, now: Db)
    requires Integrity(w.db) && Traced(w.db.rows) && Commands(w, policy, src, c, next) && WriteBatch(w.db, EditBatch(p, next)) == Ok(now)
    ensures w.Automates(src) ==> Known(w.db.rows, c.deletes, true)
    ensures Known(w.db.rows, c.deletes, w.Automates(src)) ==> (Traced(now.rows) <==> RetypesNone(w.db.rows, c, w.Automates(src)))
  {
    OnePut(w.db.zones[src], c);
    EditedRows(w.db, p, next, now);
    var q := Put(NO_QUEUE, w.db.zones[src], c);
    if w.Automates(src) { AutomatedIsKnown(w, q, src); }
    if Known(w.db.rows, c.deletes, w.Automates(src)) {
      TracedIff(w, policy, q, src, next, WriteQueue(w.db, next).value);
    }
  }

  lemma RollbackRetypesNone(w: World, policy: Policy, src: ZoneId, kept: nat, first: RecordId, mint: RecordId, ch: Changes, next: Queue)
    requires RollingBack(w, policy, src, kept, first, mint, ch, next)
    ensures RetypesNone(w.db.rows, ch, w.Automates(src))
  {
    UndoneRetimes(w.db.rows, src, first, mint, ch);
  }

  lemma CreatedRows(db: Db, p: Intent, z: Zone, q: Queue, now: Db)
    requires Integrity(db) && q.Proper() && WriteBatch(db, CreateBatch(p, z, q)) == Ok(now)
    ensures Integrity(Housing(db, z)) && WriteQueue(Housing(db, z), q).Ok? && now.rows == WriteQueue(Housing(db, z), q).value.rows
  {
    CreateParts(db, p, z, q);
    HousingKeeps(db, z);
    WriteCarries(Housing(db, z), q);
    RecordKeepsIntegrity(WriteQueue(Housing(db, z), q).value, now, CreateBatch(p, z, q), CreateBatch(p, z, q).commits);
  }

  lemma FoundingExpands(w: World, policy: Policy, z: Zone, c: Changes, next: Queue)
    requires Integrity(w.db) && Traced(w.db.rows) && z.id in w.db.zones && w.db.zones[z.id] == z && Founds(z.id, c)
    requires Expanded(w, policy, Put(NO_QUEUE, z, c), z.id, next)
    ensures Expanding(w, policy, Put(NO_QUEUE, z, c), z.id, next) && RetypesNone(w.db.rows, Put(NO_QUEUE, z, c).For(z.id), w.Automates(z.id))
  {
    OnePut(z, c);
    assert Leaving(c) == [];
    OneZoneCommanded(w.db, z, c);
  }

  lemma FoundingTraced(db: Db, w: World, policy: Policy, p: Intent, z: Zone, c: Changes, next: Queue, now: Db)
    requires Lawful(db) && Traced(db.rows) && w.db == Housing(db, z) && Founds(z.id, c)
    requires Expanded(w, policy, Put(NO_QUEUE, z, c), z.id, next) && next.Proper() && WriteBatch(db, CreateBatch(p, z, next)) == Ok(now)
    ensures Traced(now.rows)
  {
    CreatedRows(db, p, z, next, now);
    FoundingExpands(w, policy, z, c, next);
    TracedIff(w, policy, Put(NO_QUEUE, z, c), z.id, next, WriteQueue(w.db, next).value);
  }

  lemma ResettledRows(db: Db, m: Meta, asked: Zone, id: CommitId, now: Db)
    requires Integrity(db) && asked.id in db.zones && WriteBatch(db, UpdateBatch(m, db.zones[asked.id], asked, id)) == Ok(now)
    ensures now.rows == db.rows
  {
    var was := db.zones[asked.id];
    var z := Advanced(was, asked);
    UpdateParts(db, UpdateBatch(m, was, asked, id), z, UpdateCommit(m, was, z, id));
  }

  lemma DepartureTraced(db: Db, p: Intent, f: ZoneId, q: Queue, id: CommitId, now: Db)
    requires Lawful(db) && Traced(db.rows) && f in db.zones && DepartureQueued(db, f, q)
    requires WriteBatch(db, DeleteBatch(p, db.zones[f], q, id)) == Ok(now)
    ensures Traced(now.rows)
  {
    var carried, recorded := DeleteLeaves(db, p, f, q, id);
    OnlyRemovesWrites(db, q, carried);
    FewerTraced(db.rows, now.rows);
  }

  /** Changes that look for what their removals would take along: all but the deletion
      of a zone, and commands and rollbacks in a zone whose automation is off. */
  predicate Looks(ch: Change)
  {
    match ch
    case Edited(w, _, _, src, _, _, _) => w.Automates(src)
    case RolledTo(w, _, _, src, _, _, _, _, _) => w.Automates(src)
    case Deleted(_, _, _, _) => false
    case _ => true
  }

  /** No command retypes a record something it leaves hangs off. */
  ghost predicate KeepsTypes(db: Db, ch: Change)
    requires PlannedOn(db, ch)
  {
    ch.Edited? ==> RetypesNone(db.rows, ChangesOf(db, ch.src, ch.ops, ch.sets), ch.w.Automates(ch.src))
  }

  /** Where every generated record hangs off an address record or an entry, every
      change that looks spares what it does not name; and all stays so, unless a
      command retypes a record that something hangs off. */
  lemma TakenTraced(db: Db, ch: Change, next: Db)
    requires Lawful(db) && Traced(db.rows) && Taken(db, ch, next)
    ensures Looks(ch) ==> Sparing(db, ch)
    ensures Sparing(db, ch) ==> (Traced(next.rows) <==> KeepsTypes(db, ch))
  {
    match ch
    case Edited(w, policy, p, src, ops, sets, q) =>
      AskedCommands(w, policy, src, ops, sets, q);
      CommandTracedIff(w, policy, p, src, ChangesOf(db, src, ops, sets), q, next);
    case RolledTo(w, policy, p, src, kept, first, mint, c, q) =>
      RollbackCommands(w, policy, src, kept, first, mint, c, q);
      CommandTracedIff(w, policy, p, src, c, q, next);
      RollbackRetypesNone(w, policy, src, kept, first, mint, c, q);
    case Refilled(w, policy, p, sources, first, q, mint) =>
      EditedRows(db, p, q, next);
      PassTraced(w, policy, sources, first, q, mint, WriteQueue(db, q).value);
    case Created(w, policy, p, z, c, q) => FoundingTraced(db, w, policy, p, z, c, q, next);
    case Resettled(m, asked, id) => ResettledRows(db, m, asked, id, next);
    case Deleted(p, f, q, id) => DepartureTraced(db, p, f, q, id, next);
  }

  // -------------------------------------------------------------------- all runs

  /** A change is accepted, or leaves the store as it was. */
  ghost predicate Step(db: Db, ch: Change, next: Db)
  {
    Taken(db, ch, next) || next == db
  }

  ghost predicate Run(states: seq<Db>, changes: seq<Change>)
  {
    && |states| == |changes| + 1 && states[0] == NO_DATA
    && forall i :: 0 <= i < |changes| ==> Step(states[i], changes[i], states[i + 1])
  }

  ghost predicate SparingStep(db: Db, ch: Change, next: Db)
  {
    Taken(db, ch, next) ==> Sparing(db, ch)
  }

  lemma StepLawfulIff(db: Db, ch: Change, next: Db)
    requires Lawful(db) && Step(db, ch, next)
    ensures Lawful(next) <==> SparingStep(db, ch, next)
  {
    if Taken(db, ch, next) { TakenLawfulIff(db, ch, next); }
  }

  lemma RunStepLawfulIff(states: seq<Db>, changes: seq<Change>, i: nat)
    requires Run(states, changes) && i < |changes| && Lawful(states[i])
    ensures Lawful(states[i + 1]) <==> SparingStep(states[i], changes[i], states[i + 1])
  {
    assert Step(states[i], changes[i], states[i + 1]);
    StepLawfulIff(states[i], changes[i], states[i + 1]);
  }

  lemma {:induction false} SparingIsLawful(states: seq<Db>, changes: seq<Change>, n: nat)
    requires Run(states, changes) && n <= |changes|
    requires forall i :: 0 <= i < n ==> SparingStep(states[i], changes[i], states[i + 1])
    ensures Lawful(states[n])
  {
    if n == 0 {
      StartsLawful();
    } else {
      SparingIsLawful(states, changes, n - 1);
      RunStepLawfulIff(states, changes, n - 1);
    }
  }

  /** The states up to one are lawful if and only if every change accepted on the way
      spared what it did not name. */
  lemma RunLawfulIff(states: seq<Db>, changes: seq<Change>, n: nat)
    requires Run(states, changes) && n <= |changes|
    ensures (forall i :: 0 <= i <= n ==> Lawful(states[i])) <==>
            forall i :: 0 <= i < n ==> SparingStep(states[i], changes[i], states[i + 1])
  {
    if forall i :: 0 <= i <= n ==> Lawful(states[i]) {
      forall i | 0 <= i < n
        ensures SparingStep(states[i], changes[i], states[i + 1])
      {
        RunStepLawfulIff(states, changes, i);
      }
    } else {
      var j :| 0 <= j <= n && !Lawful(states[j]);
      if forall i :: 0 <= i < n ==> SparingStep(states[i], changes[i], states[i + 1]) {
        SparingIsLawful(states, changes, j);
      }
    }
  }

  /** A change that looks, or that takes along nothing it would have to look for, and
      that retypes no record something hangs off. */
  ghost predicate Tidy(db: Db, ch: Change)
  {
    PlannedOn(db, ch) ==> (Looks(ch) || Sparing(db, ch)) && KeepsTypes(db, ch)
  }

  lemma StepKeepsLaw(db: Db, ch: Change, next: Db)
    requires Lawful(db) && Traced(db.rows) && Step(db, ch, next) && Tidy(db, ch)
    ensures Lawful(next) && Traced(next.rows)
  {
    if Taken(db, ch, next) {
      TakenTraced(db, ch, next);
      TakenLawfulIff(db, ch, next);
    }
  }

  lemma StartsTraced()
    ensures Orderly(NO_DATA)
  {
    StartsLawful();
  }

  ghost predicate TidyRun(states: seq<Db>, changes: seq<Change>)
  {
    Run(states, changes) && forall k :: 0 <= k < |changes| ==> Tidy(states[k], changes[k])
  }

  ghost predicate Orderly(db: Db)
  {
    Lawful(db) && Traced(db.rows)
  }

  lemma TidyStep(states: seq<Db>, changes: seq<Change>, i: nat)
    requires TidyRun(states, changes) && i < |changes| && Orderly(states[i])
    ensures Orderly(states[i + 1])
  {
    assert Step(states[i], changes[i], states[i + 1]) && Tidy(states[i], changes[i]);
    StepKeepsLaw(states[i], changes[i], states[i + 1]);
  }

  /** In every state of every run of such commands, rollbacks, reconciliations,
      creations, changes of settings and deletions, each zone's journal replays from
      nothing to what the zone's rows serve. */
  lemma {:induction false} EveryRunLawful(states: seq<Db>, changes: seq<Change>, i: nat)
    requires TidyRun(states, changes) && i < |states|
    ensures Orderly(states[i])
  {
    if i == 0 {
      StartsTraced();
    } else {
      EveryRunLawful(states, changes, i - 1);
      TidyStep(states, changes, i - 1);
    }
  }

  // ------------------------------------------------------------- what runs reach

  ghost predicate Occurs(db: Db)
  {
    exists states, changes :: Reaches(states, changes, db)
  }

  ghost predicate Reaches(states: seq<Db>, changes: seq<Change>, db: Db)
  {
    Run(states, changes) && states[|changes|] == db
  }

  lemma StartsOccurring()
    ensures Occurs(NO_DATA)
  {
    assert Reaches([NO_DATA], [], NO_DATA);
  }

  lemma StepReaches(states: seq<Db>, changes: seq<Change>, db: Db, ch: Change, next: Db)
    requires Reaches(states, changes, db) && Step(db, ch, next)
    ensures Reaches(states + [next], changes + [ch], next)
  {
    var n := |changes|;
    forall i | 0 <= i < n + 1
      ensures Step((states + [next])[i], (changes + [ch])[i], (states + [next])[i + 1])
    {
      if i < n { assert Step(states[i], changes[i], states[i + 1]); }
    }
  }

  lemma ReachedOccurs(states: seq<Db>, changes: seq<Change>, db: Db)
    requires Reaches(states, changes, db)
    ensures Occurs(db)
  {
  }

  lemma StepOccurs(db: Db, ch: Change, next: Db)
    requires Occurs(db) && Step(db, ch, next)
    ensures Occurs(next)
  {
    var states, changes :| Reaches(states, changes, db);
    StepReaches(states, changes, db, ch, next);
    ReachedOccurs(states + [next], changes + [ch], next);
  }

  lemma TakenOccurs(db: Db, ch: Change, next: Db)
    requires Occurs(db) && Taken(db, ch, next)
    ensures Occurs(next)
  {
    StepOccurs(db, ch, next);
  }
}
