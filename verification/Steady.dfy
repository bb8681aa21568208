/** Reconciling over whole runs: it does its work once, as long as no command leaves an
    entry behind. */
module Steady {
  import opened Dns
  import opened Changes
  import opened Store
  import opened Write
  import opened Batch
  import opened History
  import opened Upkeep
  import opened Runs
  import opened Queues
  import opened Departure
  import opened Reverse
  import opened Generation
  import opened Expansion
  import opened Command
  import opened Reconcile
  import opened Provenance
  import opened Seats
  import opened Restoring
  import opened Lifetime

  /** The change names addresses in this way. */
  ghost predicate Names(owner: Owner, ch: Change)
  {
    match ch
    case Edited(w, _, _, _, _, _, _) => w.ownerIn == owner
    case RolledTo(w, _, _, _, _, _, _, _, _) => w.ownerIn == owner
    case Refilled(w, _, _, _, _, _, _) => w.ownerIn == owner
    case Created(w, _, _, _, _, _) => w.ownerIn == owner
    case _ => true
  }

  /** No command leaves an entry behind. */
  ghost predicate KeepsSeats(owner: Owner, db: Db, ch: Change)
    requires PlannedOn(db, ch)
  {
    ch.Edited? ==> UnseatsNone(owner, db.rows, ChangesOf(db, ch.src, ch.ops, ch.sets), ch.w.Automates(ch.src))
  }

  // -------------------------------------------------------------- change by change

  lemma CommandSeatedIff(w: World, policy: Policy, p: Intent, src: ZoneId, c: Changes, next: Queue, now: Db)
    requires Integrity(w.db) && Traced(w.db.rows) && Seated(w.ownerIn, w.db.rows) && Commands(w, policy, src, c, next)
    requires WriteBatch(w.db, EditBatch(p, next)) == Ok(now) && Known(w.db.rows, c.deletes, w.Automates(src))
    ensures Seated(w.ownerIn, now.rows) <==> UnseatsNone(w.ownerIn, w.db.rows, c, w.Automates(src))
    ensures w.Automates(src) ==> UnseatsNone(w.ownerIn, w.db.rows, c, true)
  {
    OnePut(w.db.zones[src], c);
    EditedRows(w.db, p, next, now);
    var q := Put(NO_QUEUE, w.db.zones[src], c);
    SeatedIff(w, policy, q, src, next, WriteQueue(w.db, next).value);
    AutomatedUnseatsNone(w, q, src);
  }

  lemma RetimedKeepsSeat(owner: Owner, rows: Rows, c: Changes, on: bool, u: Update)
    requires Seated(owner, rows) && u.before.id in rows && rows[u.before.id] == u.before && u.after == u.before.(ttl := u.after.ttl)
    ensures !Unseats(owner, rows, c, on, u)
  {
    forall x | x in Below(rows, {u.before.id}) && rows[x].typ == PTR
      ensures SeatOf(owner, u.after, rows[x])
    {
      assert SeatedAt(owner, rows, rows[x]);
    }
  }

  lemma RollbackUnseatsNone(w: World, policy: Policy, src: ZoneId, kept: nat, first: RecordId, mint: RecordId, ch: Changes, next: Queue)
    requires RollingBack(w, policy, src, kept, first, mint, ch, next) && Seated(w.ownerIn, w.db.rows)
    ensures UnseatsNone(w.ownerIn, w.db.rows, ch, w.Automates(src))
  {
    UndoneRetimes(w.db.rows, src, first, mint, ch);
    forall u | u in ch.updates
      ensures !Unseats(w.ownerIn, w.db.rows, ch, w.Automates(src), u)
    {
      RetimedKeepsSeat(w.ownerIn, w.db.rows, ch, w.Automates(src), u);
    }
  }

  lemma FoundingSeated(db: Db, w: World, policy: Policy, p: Intent, z: Zone, c: Changes, next: Queue, now: Db)
    requires Integrity(db) && Traced(db.rows) && Seated(w.ownerIn, db.rows) && w.db == Housing(db, z) && Founds(z.id, c)
    requires Expanded(w, policy, Put(NO_QUEUE, z, c), z.id, next) && next.Proper() && WriteBatch(db, CreateBatch(p, z, next)) == Ok(now)
    ensures Seated(w.ownerIn, now.rows)
  {
    CreatedRows(db, p, z, next, now);
    FoundingExpands(w, policy, z, c, next);
    OnePut(z, c);
    SeatedIff(w, policy, Put(NO_QUEUE, z, c), z.id, next, WriteQueue(w.db, next).value);
  }

  lemma FewerSeated(owner: Owner, was: Rows, now: Rows)
    requires Seated(owner, was) && Linked(now) && forall id :: id in now ==> id in was && now[id] == was[id]
    ensures Seated(owner, now)
  {
  }

  lemma DepartureSeated(owner: Owner, db: Db, p: Intent, f: ZoneId, q: Queue, id: CommitId, now: Db)
    requires Lawful(db) && Seated(owner, db.rows) && f in db.zones && DepartureQueued(db, f, q)
    requires WriteBatch(db, DeleteBatch(p, db.zones[f], q, id)) == Ok(now)
    ensures Seated(owner, now.rows)
  {
    var carried, recorded := DeleteLeaves(db, p, f, q, id);
    OnlyRemovesWrites(db, q, carried);
    DeleteKeepsIntegrity(recorded, Cascade(recorded.rows, InZone(recorded.rows, f)));
    FewerSeated(owner, db.rows, now.rows);
  }

  lemma EditedSeatedIff(w: World, policy: Policy, p: Intent, src: ZoneId, ops: seq<RecordOp>, sets: RRsetKey -> seq<Record>, c: Changes, q: Queue, now: Db)
    requires Integrity(w.db) && Traced(w.db.rows) && Seated(w.ownerIn, w.db.rows) && Asks(w.db, src, ops, sets) && c == ChangesOf(w.db, src, ops, sets)
    requires Expands(w, policy, src, c, q) && WriteBatch(w.db, EditBatch(p, q)) == Ok(now) && Known(w.db.rows, c.deletes, w.Automates(src))
    ensures Seated(w.ownerIn, now.rows) <==> UnseatsNone(w.ownerIn, w.db.rows, c, w.Automates(src))
    ensures w.Automates(src) ==> UnseatsNone(w.ownerIn, w.db.rows, c, true)
  {
    AskedCommands(w, policy, src, ops, sets, q);
    CommandSeatedIff(w, policy, p, src, c, q, now);
  }

  lemma RolledSeated(w: World, policy: Policy, p: Intent, src: ZoneId, kept: nat, first: RecordId, mint: RecordId, c: Changes, q: Queue, now: Db)
    requires RollingBack(w, policy, src, kept, first, mint, c, q) && Traced(w.db.rows) && Seated(w.ownerIn, w.db.rows)
    requires q.Proper() && WriteBatch(w.db, EditBatch(p, q)) == Ok(now) && Known(w.db.rows, c.deletes, w.Automates(src))
    ensures Seated(w.ownerIn, now.rows)
  {
    RollbackCommands(w, policy, src, kept, first, mint, c, q);
    CommandSeatedIff(w, policy, p, src, c, q, now);
    RollbackUnseatsNone(w, policy, src, kept, first, mint, c, q);
  }

  lemma RefilledSeated(w: World, policy: Policy, p: Intent, sources: seq<Record>, first: RecordId, q: Queue, mint: RecordId, now: Db)
    requires Integrity(w.db) && Sources(w.db.rows, sources) && WholePass(w, policy, sources, first, q, mint) && Seated(w.ownerIn, w.db.rows)
    requires WriteBatch(w.db, EditBatch(p, q)) == Ok(now)
    ensures Seated(w.ownerIn, now.rows)
  {
    EditedRows(w.db, p, q, now);
    PassSeated(w, policy, sources, first, q, mint, WriteQueue(w.db, q).value);
  }

  /** Every kind of change keeps generated entries at their records' addresses, except a
      command that leaves one behind; and where the automation is on, none does. */
  lemma TakenSeatedIff(owner: Owner, db: Db, ch: Change, next: Db)
    requires Orderly(db) && Seated(owner, db.rows) && Taken(db, ch, next) && Sparing(db, ch) && Names(owner, ch)
    ensures Seated(owner, next.rows) <==> KeepsSeats(owner, db, ch)
    ensures Looks(ch) ==> KeepsSeats(owner, db, ch)
  {
    match ch
    case Edited(w, policy, p, src, ops, sets, q) => EditedSeatedIff(w, policy, p, src, ops, sets, ChangesOf(db, src, ops, sets), q, next);
    case RolledTo(w, policy, p, src, kept, first, mint, c, q) => RolledSeated(w, policy, p, src, kept, first, mint, c, q, next);
    case Refilled(w, policy, p, sources, first, q, mint) => RefilledSeated(w, policy, p, sources, first, q, mint, next);
    case Created(w, policy, p, z, c, q) => FoundingSeated(db, w, policy, p, z, c, q, next);
    case Resettled(m, asked, id) => ResettledRows(db, m, asked, id, next);
    case Deleted(p, f, q, id) => DepartureSeated(owner, db, p, f, q, id, next);
  }

  // -------------------------------------------------------------------- all runs

  ghost predicate Settled(owner: Owner, db: Db)
  {
    Orderly(db) && Seated(owner, db.rows)
  }

  /** A run under one naming of addresses in which no command leaves an entry behind. */
  ghost predicate SteadyRun(owner: Owner, states: seq<Db>, changes: seq<Change>)
  {
    TidyRun(states, changes) && forall k :: 0 <= k < |changes| ==> SteadyStep(owner, states[k], changes[k])
  }

  ghost predicate SteadyStep(owner: Owner, db: Db, ch: Change)
  {
    Names(owner, ch) && (PlannedOn(db, ch) ==> Looks(ch) || KeepsSeats(owner, db, ch))
  }

  lemma StepStaysSettled(owner: Owner, states: seq<Db>, changes: seq<Change>, i: nat)
    requires SteadyRun(owner, states, changes) && i < |changes| && Settled(owner, states[i])
    ensures Settled(owner, states[i + 1])
  {
    var db, ch, next := states[i], changes[i], states[i + 1];
    TidyStep(states, changes, i);
    assert Step(db, ch, next) && SteadyStep(owner, db, ch) && Tidy(db, ch);
    if Taken(db, ch, next) { TakenStaysSeated(owner, db, ch, next); }
  }

  lemma TakenStaysSeated(owner: Owner, db: Db, ch: Change, next: Db)
    requires Settled(owner, db) && Taken(db, ch, next) && Tidy(db, ch) && SteadyStep(owner, db, ch)
    ensures Seated(owner, next.rows)
  {
    TakenTraced(db, ch, next);
    TakenSeatedIff(owner, db, ch, next);
  }

  lemma {:induction false} EveryRunSettled(owner: Owner, states: seq<Db>, changes: seq<Change>, i: nat)
    requires SteadyRun(owner, states, changes) && i < |states|
    ensures Settled(owner, states[i])
  {
    if i == 0 {
      StartsTraced();
    } else {
      EveryRunSettled(owner, states, changes, i - 1);
      StepStaysSettled(owner, states, changes, i - 1);
    }
  }

  /** In every state of every such run, whatever the listing's order: once a pass is
      carried out, doing it again comes to nothing. */
  lemma EveryPassIsIdempotent(owner: Owner, states: seq<Db>, changes: seq<Change>, i: nat, w: World, policy: Policy, p: Intent,
                              sources: seq<Record>, first: RecordId, q: Queue, mint: RecordId,
                              later: World, again: RecordId, second: Queue, last: RecordId)
    requires SteadyRun(owner, states, changes) && i < |states| && OneAddressEach(owner)
    requires w.db == states[i] && w.ownerIn == owner && Sources(w.db.rows, sources) && WholePass(w, policy, sources, first, q, mint)
    requires WriteBatch(w.db, EditBatch(p, q)) == Ok(later.db) && forall s :: s in sources ==> Place(later, s) == Place(w, s)
    requires WholePass(later, policy, sources, again, second, last)
    ensures second.Empty()
  {
    EveryRunSettled(owner, states, changes, i);
    SecondPassIsEmpty(w, policy, sources, first, q, mint, p, later, again, second, last);
  }
}
