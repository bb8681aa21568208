/** One operation on a zone as a command: resolved, expanded and taken. */
module Asking {
  import opened Dns
  import opened Journal
  import opened Changes
  import opened Ordering
  import opened Store
  import opened Write
  import opened Carry
  import opened Batch
  import opened History
  import opened Upkeep
  import opened Queues
  import opened Reverse
  import opened Generation
  import opened Expansion
  import opened Command
  import opened Lifetime
  import opened Acceptance

  // ------------------------------------------------------- listings of the store

  lemma {:induction false} InSomeOrder(rows: Rows, ids: set<RecordId>) returns (rs: seq<Record>)
    requires RowsOk(rows) && ids <= rows.Keys
    ensures UniqueIds(rs) && Present(rows, rs) && Ids(rs) == ids
    decreases ids
  {
    if ids == {} {
      rs := [];
    } else {
      var id :| id in ids;
      var rest := InSomeOrder(rows, ids - {id});
      rs := rest + [rows[id]];
      IdsConcat(rest, [rows[id]]);
      assert Ids([rows[id]]) == {id} by { assert [rows[id]][0] == rows[id]; }
      UniqueBoth(rest, [rows[id]]);
    }
  }

  lemma SomeListing(rows: Rows, z: ZoneId, key: RRsetKey)
    requires RowsOk(rows)
    ensures exists rs :: ListsSet(rows, z, key, rs)
  {
    var ids := set id | id in rows && rows[id].zone == z && SetKey(rows[id]) == key;
    var rs := InSomeOrder(rows, ids);
    forall i | 0 <= i < |rs|
      ensures rs[i].zone == z && SetKey(rs[i]) == key
    {
      assert rs[i].id in Ids(rs);
    }
    forall id | id in ids
      ensures rows[id] in rs
    {
      assert id in Ids(rs);
    }
    assert ListsSet(rows, z, key, rs);
  }

  /** The rows of an RRset, in some order. */
  ghost function Listing(rows: Rows, z: ZoneId, key: RRsetKey): (rs: seq<Record>)
    requires RowsOk(rows)
    ensures ListsSet(rows, z, key, rs)
  {
    SomeListing(rows, z, key);
    var rs :| ListsSet(rows, z, key, rs);
    rs
  }

  ghost function SetsOf(rows: Rows, z: ZoneId): RRsetKey -> seq<Record>
    requires RowsOk(rows)
  {
    key => Listing(rows, z, key)
  }

  /** The rows generated from one, in some order. */
  ghost function Derived(rows: Rows, id: RecordId): (rs: seq<Record>)
    requires RowsOk(rows)
    ensures Lists(rows, id, rs)
  {
    assert exists rs :: Lists(rows, id, rs) by {
      var rs := InSomeOrder(rows, Below(rows, {id}));
      assert Lists(rows, id, rs);
    }
    var rs :| Lists(rows, id, rs);
    rs
  }

  // ----------------------------------------------------------------- one operation

  function Editing(z: ZoneId, mint: CommitId): Intent
  {
    Intent(z, "", Edit, None, Meta(FromApi, "", ""), true, mint)
  }

  /** One operation on a zone, and what it was expanded to. */
  ghost function RequestOf(w: World, policy: Policy, z: Zone, op: RecordOp, mint: CommitId, next: Queue): Change
    requires RowsOk(w.db.rows)
  {
    Edited(w, policy, Editing(z.id, mint), z.id, [op], SetsOf(w.db.rows, z.id), next)
  }

  lemma OneResolved(db: Db, z: Zone, op: RecordOp, sets: RRsetKey -> seq<Record>)
    ensures ResolvedAll(db, z, NO_CHANGES, [op], sets) == Resolved(db, z, NO_CHANGES, op, sets)
  {
    assert [op][..0] == [];
  }

  lemma SetsAreListed(rows: Rows, z: ZoneId)
    requires RowsOk(rows)
    ensures forall key :: ListsSet(rows, z, key, SetsOf(rows, z)(key))
  {
    forall key
      ensures ListsSet(rows, z, key, SetsOf(rows, z)(key))
    {
      assert SetsOf(rows, z)(key) == Listing(rows, z, key);
    }
  }

  lemma OneAsks(db: Db, z: Zone, op: RecordOp, sets: RRsetKey -> seq<Record>, c: Changes)
    requires Integrity(db) && z.id in db.zones && db.zones[z.id] == z && ValidOp(z.id, op) && UniqueIds(Leaving(c))
    requires (forall key :: ListsSet(db.rows, z.id, key, sets(key))) && Resolved(db, z, NO_CHANGES, op, sets) == Ok(c)
    ensures Asks(db, z.id, [op], sets) && ChangesOf(db, z.id, [op], sets) == c
    ensures Commanded(db, Put(NO_QUEUE, z, c), z.id)
  {
    OneResolved(db, z, op, sets);
    CommandedIff(db, z, [op], sets);
  }

  ghost predicate Requested(w: World, policy: Policy, z: Zone, op: RecordOp, c: Changes, next: Queue)
  {
    && Integrity(w.db) && w.Holds(z) && ValidOp(z.id, op) && UniqueIds(Leaving(c)) && c.soa.None?
    && Resolved(w.db, z, NO_CHANGES, op, SetsOf(w.db.rows, z.id)) == Ok(c)
    && NoClash(w, z.id, c) && Expanded(w, policy, Put(NO_QUEUE, z, c), z.id, next)
  }

  lemma AskedIsPlanned(w: World, policy: Policy, z: Zone, op: RecordOp, c: Changes, next: Queue, mint: CommitId)
    requires Requested(w, policy, z, op, c, next)
    ensures PlannedOn(w.db, RequestOf(w, policy, z, op, mint, next)) && Expands(w, policy, z.id, c, next)
    ensures Asks(w.db, z.id, [op], SetsOf(w.db.rows, z.id)) && ChangesOf(w.db, z.id, [op], SetsOf(w.db.rows, z.id)) == c
  {
    SetsAreListed(w.db.rows, z.id);
    OneAsks(w.db, z, op, SetsOf(w.db.rows, z.id), c);
  }

  lemma AskedNoSoa(w: World, policy: Policy, z: Zone, op: RecordOp, c: Changes, next: Queue)
    requires Requested(w, policy, z, op, c, next)
    ensures KeepsSoa(next)
  {
    var q := Put(NO_QUEUE, z, c);
    PutProper(NO_QUEUE, z, c);
    forall y
      ensures next.For(y).soa.None?
    {
      assert KeepsIn(q.For(y), next.For(y));
    }
  }

  ghost predicate Began(db: Db, mint: CommitId, n: nat)
  {
    Lawful(db) && Room(db, mint, n) && n < SERIAL_SPACE - 1
  }

  /** A command whose rows go through is taken. */
  lemma AskedTaken(w: World, policy: Policy, z: Zone, op: RecordOp, c: Changes, next: Queue, mint: CommitId, n: nat) returns (now: Db)
    requires Requested(w, policy, z, op, c, next) && Began(w.db, mint, n) && WriteQueue(w.db, next).Ok?
    ensures next.Proper() && Taken(w.db, RequestOf(w, policy, z, op, mint, next), now)
    ensures now.rows == WriteQueue(w.db, next).value.rows && Integrity(now) && MovedOn(w.db, next, now)
    ensures Room(now, mint + |next.order|, n + 1) && now.commits == w.db.commits + EditBatch(Editing(z.id, mint), next).commits
    ensures Lawful(now) <==> Known(w.db.rows, c.deletes, w.Automates(z.id))
    ensures c.deletes == [] ==> Lawful(now)
  {
    var p := Editing(z.id, mint);
    AskedNoSoa(w, policy, z, op, c, next);
    AskedIsPlanned(w, policy, z, op, c, next, mint);
    EditAccepted(w.db, p, next, n, WriteQueue(w.db, next).value);
    now := WriteBatch(w.db, EditBatch(p, next)).value;
    EditMovesOn(w.db, p, next, n, now);
    EditLeavesRoom(w.db, p, next, n, now);
    EditedLawfulIff(w, policy, p, z.id, [op], SetsOf(w.db.rows, z.id), c, next, now);
  }

  // ------------------------------------------------- with nothing to retire or generate

  /** One that calls for nothing in any other zone. */
  ghost predicate Plain(w: World, z: ZoneId, c: Changes)
  {
    Tops(w, z, c) == {} && UniqueIds(Leaving(c)) && forall s :: s in Givers(w, z, c) ==> !Reverses(s)
  }

  lemma PlainAsked(w: World, policy: Policy, z: Zone, op: RecordOp, c: Changes)
    requires Integrity(w.db) && w.Holds(z) && ValidOp(z.id, op) && Plain(w, z.id, c) && c.soa.None?
    requires Resolved(w.db, z, NO_CHANGES, op, SetsOf(w.db.rows, z.id)) == Ok(c)
    ensures Requested(w, policy, z, op, c, Put(NO_QUEUE, z, c))
  {
    SetsAreListed(w.db.rows, z.id);
    OneAsks(w.db, z, op, SetsOf(w.db.rows, z.id), c);
    OneZoneGathers(z, c);
    NothingToExpand(w, policy, Put(NO_QUEUE, z, c), z.id);
  }

  /** It is taken if its rows go through, and moves its own zone on. */
  lemma PlainTaken(w: World, policy: Policy, z: Zone, op: RecordOp, c: Changes, mint: CommitId, n: nat, rows: Rows) returns (now: Db)
    requires Began(w.db, mint, n) && w.Holds(z) && ValidOp(z.id, op) && Plain(w, z.id, c) && c.soa.None? && !c.Empty()
    requires Resolved(w.db, z, NO_CHANGES, op, SetsOf(w.db.rows, z.id)) == Ok(c)
    requires WriteQueue(w.db, Put(NO_QUEUE, z, c)) == Ok(w.db.(rows := rows))
    ensures Taken(w.db, RequestOf(w, policy, z, op, mint, Put(NO_QUEUE, z, c)), now)
    ensures now.rows == rows && now.zones == w.db.zones[z.id := Moved(z)] && Room(now, mint + 1, n + 1)
    ensures Lawful(now) <==> Known(w.db.rows, c.deletes, w.Automates(z.id))
    ensures c.deletes == [] ==> Lawful(now)
    ensures forall y :: y != z.id ==> Of(now.commits, y) == Of(w.db.commits, y)
  {
    var q := Put(NO_QUEUE, z, c);
    PlainAsked(w, policy, z, op, c);
    OneZoneGathers(z, c);
    now := AskedTaken(w, policy, z, op, c, q, mint, n);
    OneMovedOn(w.db, z, c, now);
    forall y | y != z.id
      ensures Of(now.commits, y) == Of(w.db.commits, y)
    {
      OneZoneCommits(z, c, mint, y);
      OfConcat(w.db.commits, EditBatch(Editing(z.id, mint), q).commits, y);
    }
  }

  lemma OneMovedOn(db: Db, z: Zone, c: Changes, now: Db)
    requires MovedOn(db, Put(NO_QUEUE, z, c), now) && z.id in db.zones && db.zones[z.id] == z && !c.Empty()
    ensures now.zones == db.zones[z.id := Moved(z)]
  {
    PutProper(NO_QUEUE, z, c);
  }

  lemma OneZoneCommits(z: Zone, c: Changes, mint: CommitId, y: ZoneId)
    requires y != z.id && Put(NO_QUEUE, z, c).Proper()
    ensures Of(EditBatch(Editing(z.id, mint), Put(NO_QUEUE, z, c)).commits, y) == []
  {
    PutProper(NO_QUEUE, z, c);
    var id := OwnCommit(Editing(z.id, mint), Put(NO_QUEUE, z, c), y);
  }
}
