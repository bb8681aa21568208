/** Turning the operations of a command into changes to its zone, and what naming
    a record twice in one command does to the journal. */
module Command {
  import opened Dns
  import opened Journal
  import opened Changes
  import opened Ordering
  import opened Store
  import opened Write
  import opened View
  import opened Carry
  import opened Batch
  import opened History
  import opened Upkeep
  import opened Runs
  import opened Queues
  import opened Expansion

  datatype RecordOp =
    | Author(record: Record)
    | Amend(id: RecordId, record: Record)
    | Withdraw(id: RecordId)
    | Detach(id: RecordId)
    | ReplaceSet(key: RRsetKey, records: seq<Record>)

  /** A record a person writes into the zone. */
  predicate Writable(z: ZoneId, r: Record)
  {
    r.zone == z && ValidRecord(r) && r.managedBy.None?
  }

  /** Well formed on its own, with what it left open filled in. */
  predicate ValidOp(z: ZoneId, op: RecordOp)
  {
    match op
    case Author(r) => Writable(z, r)
    case Amend(id, r) => r.id == id && r.zone == z && ValidRecord(r)
    case Withdraw(_) => true
    case Detach(_) => true
    case ReplaceSet(key, rs) => ValidSet(z, key, rs)
  }

  predicate ValidSet(z: ZoneId, key: RRsetKey, rs: seq<Record>)
  {
    && (forall i :: 0 <= i < |rs| ==> Writable(z, rs[i]) && SetKey(rs[i]) == key)
    && (forall i, j :: 0 <= i < j < |rs| ==> rs[i].data != rs[j].data)
  }

  /** The rows of one RRset, each once, in whatever order the store lists them. */
  ghost predicate ListsSet(rows: Rows, z: ZoneId, key: RRsetKey, existing: seq<Record>)
  {
    && RowsOf(rows, z, existing)
    && (forall i :: 0 <= i < |existing| ==> SetKey(existing[i]) == key)
    && (forall id :: id in rows && rows[id].zone == z && SetKey(rows[id]) == key ==> rows[id] in existing)
  }

  // ------------------------------------------------------------- one operation

  /** A record of this zone that a person may change. */
  function OwnedAndAuthored(rows: Rows, z: Zone, id: RecordId): Result<Record>
  {
    if id !in rows then Err(NotFound)
    else if rows[id].zone != z.id || rows[id].managedBy.Some? then Err(Invalid)
    else Ok(rows[id])
  }

  predicate SameContent(a: Record, b: Record)
  {
    KeyOf(a) == KeyOf(b) && a.ttl == b.ttl && a.comment == b.comment && a.disabled == b.disabled
  }

  /** Identity and provenance belong to the record, not to the edit. */
  function Kept(before: Record, r: Record): Record
  {
    r.(id := before.id, managedBy := before.managedBy, managedKind := before.managedKind)
  }

  function Amended(c: Changes, before: Record, r: Record): Changes
  {
    if SameContent(before, Kept(before, r)) then c else c.Replace(before, Kept(before, r))
  }

  function Wanted(rs: seq<Record>): map<RData, Record>
  {
    if rs == [] then map[] else Wanted(rs[..|rs| - 1])[rs[|rs| - 1].data := rs[|rs| - 1]]
  }

  /** The first n rows of a set, each kept, changed or removed. */
  function Settled(c: Changes, existing: seq<Record>, wanted: map<RData, Record>, n: nat): Changes
    requires n <= |existing|
  {
    if n == 0 then c
    else
      var d, before := Settled(c, existing, wanted, n - 1), existing[n - 1];
      if before.data in wanted then Amended(d, before, wanted[before.data]) else d.Remove(before)
  }

  /** The first n of the records asked for, each added unless it was there. */
  function Completed(c: Changes, missing: set<RData>, rs: seq<Record>, n: nat): Changes
    requires n <= |rs|
  {
    if n == 0 then c
    else
      var d := Completed(c, missing, rs, n - 1);
      if rs[n - 1].data in missing then d.Insert(rs[n - 1]) else d
  }

  function DataOf(rs: seq<Record>): set<RData>
  {
    set i | 0 <= i < |rs| :: rs[i].data
  }

  function ReplacedSet(c: Changes, existing: seq<Record>, rs: seq<Record>): Changes
  {
    Completed(Settled(c, existing, Wanted(rs), |existing|), DataOf(rs) - DataOf(existing), rs, |rs|)
  }

  function Resolved(db: Db, z: Zone, c: Changes, op: RecordOp, sets: RRsetKey -> seq<Record>): Result<Changes>
  {
    match op
    case Author(r) => if Contains(z, r.name) then Ok(c.Insert(r)) else Err(Invalid)
    case Amend(id, r) =>
      (match OwnedAndAuthored(db.rows, z, id)
       case Err(why) => Err(why)
       case Ok(before) => if Contains(z, r.name) then Ok(Amended(c, before, r)) else Err(Invalid))
    case Withdraw(id) =>
      (match OwnedAndAuthored(db.rows, z, id)
       case Err(why) => Err(why)
       case Ok(before) => Ok(c.Remove(before)))
    case Detach(id) =>
      if id !in db.rows then Err(NotFound)
      else if db.rows[id].zone != z.id then Err(Invalid)
      else if db.rows[id].managedBy.None? then Ok(c)
      else Ok(c.Replace(db.rows[id], db.rows[id].(managedBy := None, managedKind := None)))
    case ReplaceSet(key, rs) =>
      if !Contains(z, key.name) then Err(Invalid)
      else if exists i :: 0 <= i < |sets(key)| && sets(key)[i].managedBy.Some? then Err(Invalid)
      else Ok(ReplacedSet(c, sets(key), rs))
  }

  /** All operations, in order; the first that cannot be resolved ends it. */
  function ResolvedAll(db: Db, z: Zone, c: Changes, ops: seq<RecordOp>, sets: RRsetKey -> seq<Record>): Result<Changes>
  {
    if ops == [] then Ok(c)
    else
      match ResolvedAll(db, z, c, ops[..|ops| - 1], sets)
      case Err(why) => Err(why)
      case Ok(d) => Resolved(db, z, d, ops[|ops| - 1], sets)
  }

  // ------------------------------------------------------------- the names touched

  lemma AmendedInStep(c: Changes, before: Record, r: Record)
    requires InStep(c)
    ensures InStep(Amended(c, before, r))
  {
    ReplaceInStep(c, before, Kept(before, r));
  }

  lemma {:induction false} SettledInStep(c: Changes, existing: seq<Record>, wanted: map<RData, Record>, n: nat)
    requires InStep(c) && n <= |existing|
    ensures InStep(Settled(c, existing, wanted, n))
  {
    if n > 0 {
      var d, before := Settled(c, existing, wanted, n - 1), existing[n - 1];
      SettledInStep(c, existing, wanted, n - 1);
      RemoveInStep(d, before);
      if before.data in wanted { AmendedInStep(d, before, wanted[before.data]); }
    }
  }

  lemma {:induction false} CompletedInStep(c: Changes, missing: set<RData>, rs: seq<Record>, n: nat)
    requires InStep(c) && n <= |rs|
    ensures InStep(Completed(c, missing, rs, n))
  {
    if n > 0 {
      CompletedInStep(c, missing, rs, n - 1);
      InsertInStep(Completed(c, missing, rs, n - 1), rs[n - 1]);
    }
  }

  lemma ResolvedInStep(db: Db, z: Zone, c: Changes, op: RecordOp, sets: RRsetKey -> seq<Record>)
    requires InStep(c) && Resolved(db, z, c, op, sets).Ok?
    ensures InStep(Resolved(db, z, c, op, sets).value)
  {
    match op
    case Author(r) => InsertInStep(c, r);
    case Amend(id, r) => AmendedInStep(c, db.rows[id], r);
    case Withdraw(id) => RemoveInStep(c, db.rows[id]);
    case Detach(id) => ReplaceInStep(c, db.rows[id], db.rows[id].(managedBy := None, managedKind := None));
    case ReplaceSet(key, rs) =>
      SettledInStep(c, sets(key), Wanted(rs), |sets(key)|);
      CompletedInStep(Settled(c, sets(key), Wanted(rs), |sets(key)|), DataOf(rs) - DataOf(sets(key)), rs, |rs|);
  }

  /** A command's changes touch just the names of what they move. */
  lemma {:induction false} ResolvedAllInStep(db: Db, z: Zone, c: Changes, ops: seq<RecordOp>, sets: RRsetKey -> seq<Record>)
    requires InStep(c) && ResolvedAll(db, z, c, ops, sets).Ok?
    ensures InStep(ResolvedAll(db, z, c, ops, sets).value)
  {
    if ops != [] {
      var front := ops[..|ops| - 1];
      ResolvedAllInStep(db, z, c, front, sets);
      ResolvedInStep(db, z, ResolvedAll(db, z, c, front, sets).value, ops[|ops| - 1], sets);
    }
  }

  class Resolver {
    const db: Db
    const z: Zone
    var ch: Changes

    constructor (db: Db, z: Zone)
      ensures this.db == db && this.z == z && ch == NO_CHANGES
    {
      this.db, this.z, this.ch := db, z, NO_CHANGES;
    }

    method Resolve(op: RecordOp, sets: RRsetKey -> seq<Record>) returns (err: Option<Refusal>)
      requires ValidOp(z.id, op) && UniqueKeys(db.rows)
      requires forall key :: ListsSet(db.rows, z.id, key, sets(key))
      modifies this`ch
      ensures match Resolved(db, z, old(ch), op, sets)
              case Ok(next) => err == None && ch == next
              case Err(why) => err == Some(why) && ch == old(ch)
    {
      err := None;
      match op
      case Author(r) =>
        if !Contains(z, r.name) { return Some(Invalid); }
        ch := ch.Insert(r);
      case Amend(id, r) =>
        if id !in db.rows { return Some(NotFound); }
        var before := db.rows[id];
        if before.zone != z.id || before.managedBy.Some? { return Some(Invalid); }
        if !Contains(z, r.name) { return Some(Invalid); }
        var after := r.(id := before.id, managedBy := before.managedBy, managedKind := before.managedKind);
        if SameContent(before, after) { return; }
        ch := ch.Replace(before, after);
      case Withdraw(id) =>
        if id !in db.rows { return Some(NotFound); }
        var before := db.rows[id];
        if before.zone != z.id || before.managedBy.Some? { return Some(Invalid); }
        ch := ch.Remove(before);
      case Detach(id) =>
        if id !in db.rows { return Some(NotFound); }
        var before := db.rows[id];
        if before.zone != z.id { return Some(Invalid); }
        if before.managedBy.None? { return; }
        ch := ch.Replace(before, before.(managedBy := None, managedKind := None));
      case ReplaceSet(key, rs) =>
        if !Contains(z, key.name) { return Some(Invalid); }
        for i := 0 to |sets(key)|
          invariant forall k :: 0 <= k < i ==> sets(key)[k].managedBy.None?
          invariant ch == old(ch)
        {
          if sets(key)[i].managedBy.Some? { return Some(Invalid); }
        }
        SetHasDistinctData(db.rows, z.id, key, sets(key));
        Replace(rs, sets(key));
    }

    method ResolveEach(ops: seq<RecordOp>, sets: RRsetKey -> seq<Record>) returns (err: Option<Refusal>)
      requires UniqueKeys(db.rows) && forall i :: 0 <= i < |ops| ==> ValidOp(z.id, ops[i])
      requires forall key :: ListsSet(db.rows, z.id, key, sets(key))
      modifies this`ch
      ensures match ResolvedAll(db, z, old(ch), ops, sets)
              case Ok(next) => err == None && ch == next
              case Err(why) => err == Some(why)
    {
      for i := 0 to |ops|
        invariant ResolvedAll(db, z, old(ch), ops[..i], sets) == Ok(ch)
      {
        assert ops[..i + 1][..i] == ops[..i] && ops[..i + 1][i] == ops[i];
        err := Resolve(ops[i], sets);
        if err.Some? {
          RefusedStays(db, z, old(ch), ops, sets, i + 1, |ops|);
          assert ops[..|ops|] == ops;
          return;
        }
      }
      assert ops[..|ops|] == ops;
      return None;
    }

    /** Works out the difference between what a set holds and what it is to hold. */
    method Replace(rs: seq<Record>, existing: seq<Record>)
      requires DistinctData(rs) && DistinctData(existing)
      modifies this`ch
      ensures ch == ReplacedSet(old(ch), existing, rs)
    {
      var wanted: map<RData, Record> := map[];
      for i := 0 to |rs|
        invariant wanted == Wanted(rs[..i]) && ch == old(ch)
      {
        assert rs[..i + 1][..i] == rs[..i];
        wanted := wanted[rs[i].data := rs[i]];
      }
      assert rs[..|rs|] == rs;
      WantedIs(rs);
      var left := Settle(existing, wanted);
      Complete(rs, left, DataOf(rs) - DataOf(existing));
    }

    /** Same data is the same record; what is not wanted any more goes. */
    method Settle(existing: seq<Record>, wanted: map<RData, Record>) returns (left: map<RData, Record>)
      requires DistinctData(existing)
      modifies this`ch
      ensures ch == Settled(old(ch), existing, wanted, |existing|)
      ensures left == wanted - DataOf(existing)
    {
      left := wanted;
      for i := 0 to |existing|
        invariant left == wanted - DataOf(existing[..i])
        invariant ch == Settled(old(ch), existing, wanted, i)
      {
        DataMore(existing, i);
        var before := existing[i];
        if before.data !in left {
          ch := ch.Remove(before);
        } else {
          var after := left[before.data];
          left := left - {before.data};
          var next := after.(id := before.id, managedBy := before.managedBy, managedKind := before.managedKind);
          if !SameContent(before, next) { ch := ch.Replace(before, next); }
        }
      }
      assert existing[..|existing|] == existing;
    }

    /** Whatever is left was not there before, added in the order given. */
    method Complete(rs: seq<Record>, wanted: map<RData, Record>, ghost missing: set<RData>)
      requires DistinctData(rs) && wanted == Wanted(rs) - (DataOf(rs) - missing) && missing <= DataOf(rs)
      modifies this`ch
      ensures ch == Completed(old(ch), missing, rs, |rs|)
    {
      WantedIs(rs);
      var left := wanted;
      for i := 0 to |rs|
        invariant left == wanted - DataOf(rs[..i])
        invariant ch == Completed(old(ch), missing, rs, i)
      {
        DataMore(rs, i);
        if rs[i].data in left {
          ch := ch.Insert(left[rs[i].data]);
          left := left - {rs[i].data};
        }
      }
    }
  }

  predicate DistinctData(rs: seq<Record>)
  {
    forall i, j :: 0 <= i < j < |rs| ==> rs[i].data != rs[j].data
  }

  lemma SetHasDistinctData(rows: Rows, z: ZoneId, key: RRsetKey, existing: seq<Record>)
    requires UniqueKeys(rows) && ListsSet(rows, z, key, existing)
    ensures DistinctData(existing)
  {
    forall i, j | 0 <= i < j < |existing|
      ensures existing[i].data != existing[j].data
    {
      assert existing[i].id != existing[j].id;
      assert SetKey(existing[i]) == SetKey(existing[j]);
    }
  }

  lemma DataMore(rs: seq<Record>, i: nat)
    requires i < |rs|
    ensures DataOf(rs[..i + 1]) == DataOf(rs[..i]) + {rs[i].data}
    ensures DistinctData(rs) ==> rs[i].data !in DataOf(rs[..i])
  {
    assert rs[..i + 1] == rs[..i] + [rs[i]];
    assert rs[..i + 1][i] == rs[i];
    forall d | d in DataOf(rs[..i])
      ensures d in DataOf(rs[..i + 1])
    {
      var k :| 0 <= k < i && rs[..i][k].data == d;
      assert rs[..i + 1][k] == rs[..i][k];
    }
  }

  lemma {:induction false} WantedIs(rs: seq<Record>)
    ensures Wanted(rs).Keys == DataOf(rs)
    ensures DistinctData(rs) ==> forall i :: 0 <= i < |rs| ==> Wanted(rs)[rs[i].data] == rs[i]
  {
    if rs != [] {
      var front := rs[..|rs| - 1];
      WantedIs(front);
      DataMore(rs, |rs| - 1);
      assert rs[..|rs|] == rs;
      assert forall i :: 0 <= i < |front| ==> front[i] == rs[i];
    }
  }

  lemma {:induction false} RefusedStays(db: Db, z: Zone, c: Changes, ops: seq<RecordOp>, sets: RRsetKey -> seq<Record>, k: nat, n: nat)
    requires k <= n <= |ops| && ResolvedAll(db, z, c, ops[..k], sets).Err?
    ensures ResolvedAll(db, z, c, ops[..n], sets) == ResolvedAll(db, z, c, ops[..k], sets)
    decreases n
  {
    if k < n {
      RefusedStays(db, z, c, ops, sets, k, n - 1);
      assert ops[..n][..n - 1] == ops[..n - 1];
    }
  }

  // ------------------------------------------------------ what a command comes to

  ghost predicate Stored(rows: Rows, z: ZoneId, r: Record)
  {
    r.id in rows && rows[r.id] == r && r.zone == z
  }

  /** Rows of the zone as they stand leave it, authored ones or ones detached, and
      authored ones join it. A row may be named more than once. */
  ghost predicate Draft(rows: Rows, z: ZoneId, c: Changes)
  {
    && (forall d :: d in c.deletes ==> Stored(rows, z, d) && d.managedBy.None?)
    && (forall u :: u in c.updates ==> DraftUpdate(rows, z, u))
    && (forall r :: r in c.inserts ==> r.zone == z && r.managedBy.None? && r.managedKind.None?)
    && c.claims == [] && c.soa.None?
  }

  ghost predicate DraftUpdate(rows: Rows, z: ZoneId, u: Update)
  {
    && Stored(rows, z, u.before) && InPlace(z, u) && ValidRecord(u.after)
    && (u.before.managedBy.None? || Detaches(u))
  }

  lemma AmendedDraft(rows: Rows, z: ZoneId, c: Changes, before: Record, r: Record)
    requires RowsOk(rows) && Draft(rows, z, c) && Stored(rows, z, before) && before.managedBy.None?
    requires r.zone == z && ValidRecord(r)
    ensures Draft(rows, z, Amended(c, before, r))
  {
    assert DraftUpdate(rows, z, Update(before, Kept(before, r)));
  }

  lemma {:induction false} SettledDraft(rows: Rows, z: ZoneId, c: Changes, existing: seq<Record>, wanted: map<RData, Record>, n: nat)
    requires RowsOk(rows) && Draft(rows, z, c) && n <= |existing|
    requires forall i :: 0 <= i < |existing| ==> Stored(rows, z, existing[i]) && existing[i].managedBy.None?
    requires forall d :: d in wanted ==> Writable(z, wanted[d])
    ensures Draft(rows, z, Settled(c, existing, wanted, n))
  {
    if n > 0 {
      SettledDraft(rows, z, c, existing, wanted, n - 1);
      var before := existing[n - 1];
      if before.data in wanted {
        AmendedDraft(rows, z, Settled(c, existing, wanted, n - 1), before, wanted[before.data]);
      }
    }
  }

  lemma {:induction false} CompletedDraft(rows: Rows, z: ZoneId, c: Changes, missing: set<RData>, rs: seq<Record>, n: nat)
    requires Draft(rows, z, c) && n <= |rs| && forall i :: 0 <= i < |rs| ==> Writable(z, rs[i])
    ensures Draft(rows, z, Completed(c, missing, rs, n))
  {
    if n > 0 { CompletedDraft(rows, z, c, missing, rs, n - 1); }
  }

  lemma WantedWritable(z: ZoneId, key: RRsetKey, rs: seq<Record>)
    requires ValidSet(z, key, rs)
    ensures forall d :: d in Wanted(rs) ==> Writable(z, Wanted(rs)[d])
  {
    WantedIs(rs);
    forall d | d in Wanted(rs)
      ensures Writable(z, Wanted(rs)[d])
    {
      var i :| 0 <= i < |rs| && rs[i].data == d;
      assert DistinctData(rs);
    }
  }

  lemma ResolvedDraft(db: Db, z: Zone, c: Changes, op: RecordOp, sets: RRsetKey -> seq<Record>)
    requires Integrity(db) && Draft(db.rows, z.id, c) && ValidOp(z.id, op)
    requires forall key :: ListsSet(db.rows, z.id, key, sets(key))
    requires Resolved(db, z, c, op, sets).Ok?
    ensures Draft(db.rows, z.id, Resolved(db, z, c, op, sets).value)
  {
    match op
    case Author(r) =>
    case Amend(id, r) => AmendedDraft(db.rows, z.id, c, db.rows[id], r);
    case Withdraw(id) =>
    case Detach(id) =>
      if db.rows[id].managedBy.Some? {
        assert DraftUpdate(db.rows, z.id, Update(db.rows[id], db.rows[id].(managedBy := None, managedKind := None)));
      }
    case ReplaceSet(key, rs) =>
      var existing := sets(key);
      assert ListsSet(db.rows, z.id, key, existing);
      WantedWritable(z.id, key, rs);
      SettledDraft(db.rows, z.id, c, existing, Wanted(rs), |existing|);
      CompletedDraft(db.rows, z.id, Settled(c, existing, Wanted(rs), |existing|), DataOf(rs) - DataOf(existing), rs, |rs|);
  }

  lemma {:induction false} AllResolvedDraft(db: Db, z: Zone, ops: seq<RecordOp>, sets: RRsetKey -> seq<Record>)
    requires Integrity(db) && forall i :: 0 <= i < |ops| ==> ValidOp(z.id, ops[i])
    requires forall key :: ListsSet(db.rows, z.id, key, sets(key))
    requires ResolvedAll(db, z, NO_CHANGES, ops, sets).Ok?
    ensures Draft(db.rows, z.id, ResolvedAll(db, z, NO_CHANGES, ops, sets).value)
  {
    if ops != [] {
      AllResolvedDraft(db, z, ops[..|ops| - 1], sets);
      ResolvedDraft(db, z, ResolvedAll(db, z, NO_CHANGES, ops[..|ops| - 1], sets).value, ops[|ops| - 1], sets);
    }
  }

  ghost predicate DraftIn(db: Db, q: Queue, z: ZoneId)
    requires q.Proper() && z in q.byZone
  {
    AsRead(db, q, z) && Draft(db.rows, z, q.byZone[z])
  }

  /** What may still be wrong with a command's own changes is a row named twice. */
  lemma DraftWellQueued(rows: Rows, z: ZoneId, c: Changes)
    requires Draft(rows, z, c)
    ensures WellQueuedIn(rows, z, c) <==> UniqueIds(Leaving(c))
  {
    forall i | 0 <= i < |Leaving(c)|
      ensures Stored(rows, z, Leaving(c)[i])
    {
      if i < |c.deletes| {
        assert Leaving(c)[i] == c.deletes[i];
      } else {
        assert c.updates[i - |c.deletes|] in c.updates;
      }
    }
  }

  /** The changes a command resolves to are ones expansion can take up if and only
      if no row is named twice. */
  lemma CommandedIff(db: Db, z: Zone, ops: seq<RecordOp>, sets: RRsetKey -> seq<Record>)
    requires Integrity(db) && z.id in db.zones && db.zones[z.id] == z
    requires forall i :: 0 <= i < |ops| ==> ValidOp(z.id, ops[i])
    requires forall key :: ListsSet(db.rows, z.id, key, sets(key))
    requires ResolvedAll(db, z, NO_CHANGES, ops, sets).Ok?
    ensures var c := ResolvedAll(db, z, NO_CHANGES, ops, sets).value;
            Commanded(db, Put(NO_QUEUE, z, c), z.id) <==> UniqueIds(Leaving(c))
  {
    AllResolvedDraft(db, z, ops, sets);
    var c := ResolvedAll(db, z, NO_CHANGES, ops, sets).value;
    DraftCommanded(db, z, c);
  }

  lemma DraftCommanded(db: Db, z: Zone, c: Changes)
    requires z.id in db.zones && db.zones[z.id] == z && Draft(db.rows, z.id, c)
    ensures Commanded(db, Put(NO_QUEUE, z, c), z.id) <==> UniqueIds(Leaving(c))
  {
    var q := Put(NO_QUEUE, z, c);
    PutProper(NO_QUEUE, z, c);
    DraftWellQueued(db.rows, z.id, c);
    if UniqueIds(Leaving(c)) {
      assert forall y :: y in q.byZone ==> y == z.id;
      assert AsRead(db, q, z.id);
    } else {
      assert !WellQueuedIn(db.rows, z.id, q.byZone[z.id]);
    }
  }

  // ------------------------------------------------------------ a row named twice

  /** Deletions replay only if no two name one record. */
  lemma {:induction false} ReplayedDelsAreDistinct(st: State, rs: seq<Record>)
    requires NoSoa(rs) && Replay(st, Marks(Del, rs)).Some?
    ensures DistinctKeys(rs) && Keys(rs) <= st.content.Keys
    decreases |rs|
  {
    if rs != [] {
      var rest := rs[1..];
      assert Marks(Del, rs)[1..] == Marks(Del, rest);
      assert rs[0].typ != SOA;
      ReplayedDelsAreDistinct(Step(st, Marks(Del, rs)[0]).value, rest);
      forall j | 0 < j < |rs|
        ensures KeyOf(rs[j]) != KeyOf(rs[0]) && KeyOf(rs[j]) in st.content
      {
        assert rest[j - 1] == rs[j];
        assert KeyOf(rest[j - 1]) in Keys(rest);
      }
      forall i, j | 0 <= i < j < |rs|
        ensures KeyOf(rs[i]) != KeyOf(rs[j])
      {
        if i > 0 { assert rest[i - 1] == rs[i] && rest[j - 1] == rs[j]; }
      }
    }
  }

  lemma ReplayedOnce(st: State, c: Changes)
    requires NoSoa(Leaving(c)) && Replay(st, EventsOf(c)).Some?
    ensures DistinctKeys(Leaving(c))
  {
    var dels, adds := Marks(Del, Leaving(c)), Marks(Add, Arriving(c));
    ReplayIgnoresNumbers(st, dels + adds, Number(dels + adds));
    ReplayConcat(st, dels, adds);
    ReplayedDelsAreDistinct(st, Leaving(c));
  }

  lemma DistinctKeysAreIds(rows: Rows, z: ZoneId, c: Changes)
    requires RowsOk(rows) && Draft(rows, z, c)
    ensures NoSoa(Leaving(c))
    ensures DistinctKeys(Leaving(c)) ==> UniqueIds(Leaving(c))
  {
    var out := Leaving(c);
    forall i | 0 <= i < |out|
      ensures Stored(rows, z, out[i])
    {
      if i < |c.deletes| {
        assert out[i] == c.deletes[i];
      } else {
        assert c.updates[i - |c.deletes|] in c.updates;
      }
    }
  }

  /** Written all the same, changes that name a row twice leave a journal that does
      not replay. */
  lemma TwiceNamedBreaksLaw(db: Db, p: Intent, q: Queue, z: ZoneId)
    requires Lawful(db) && q.Proper() && z in q.byZone && DraftIn(db, q, z) && p.kind != ZoneCreate
    requires WriteBatch(db, EditBatch(p, q)).Ok? && !UniqueIds(Leaving(q.byZone[z]))
    ensures z in WriteBatch(db, EditBatch(p, q)).value.zones && !LawAt(WriteBatch(db, EditBatch(p, q)).value, z)
  {
    var b, now, carried := EditBatch(p, q), WriteBatch(db, EditBatch(p, q)).value, WriteQueue(db, q);
    EditParts(db, p, q);
    WriteCarries(db, q);
    CommitsRecorded(carried.value, b, b.commits);
    ZoneRecorded(carried.value, now, b, z);
    var id := OwnCommit(p, q, z);
    OwnDoesNotReplay(db, now, b, p, q, z, id);
  }

  lemma OwnDoesNotReplay(db: Db, now: Db, b: Batch, p: Intent, q: Queue, z: ZoneId, id: CommitId)
    requires Integrity(db) && q.Proper() && z in q.byZone && DraftIn(db, q, z) && LawAt(db, z) && p.kind != ZoneCreate
    requires !UniqueIds(Leaving(q.byZone[z])) && b.queue == q && Of(b.commits, z) == Own(p, q, z, id)
    requires z in now.zones && Of(now.commits, z) == Of(db.commits, z) + Of(b.commits, z)
    ensures !LawAt(now, z)
  {
    var c := q.byZone[z];
    DistinctKeysAreIds(db.rows, z, c);
    if LawAt(now, z) {
      OwnEventsLead(db, now, b, z);
      var own := CommitFor(p, q.zones[z], c, id);
      assert Of(b.commits, z) == [own];
      assert Events([own]) == own.events;
      ReplayedOnce(Standing(db.zones[z], Served(db.rows, z)), c);
    }
  }

  /** An edit as its operations come to keeps the law if and only if it names no row
      twice and leaves behind nothing that hangs off what it removes. */
  lemma EditLawfulIffOnce(db: Db, p: Intent, q: Queue)
    requires Lawful(db) && q.Proper() && p.kind != ZoneCreate && WriteBatch(db, EditBatch(p, q)).Ok?
    requires forall z :: z in q.byZone ==> DraftIn(db, q, z)
    ensures Lawful(WriteBatch(db, EditBatch(p, q)).value) <==>
            (forall z :: z in q.byZone ==> UniqueIds(Leaving(q.byZone[z]))) && Closed(db.rows, Ids(AllDeletes(q)))
  {
    if z :| z in q.byZone && !UniqueIds(Leaving(q.byZone[z])) {
      TwiceNamedBreaksLaw(db, p, q, z);
    } else {
      forall z | z in q.byZone
        ensures WellQueuedIn(db.rows, z, q.byZone[z]) && AsRead(db, q, z)
      {
        assert DraftIn(db, q, z);
        DraftWellQueued(db.rows, z, q.byZone[z]);
      }
      assert WellPlanned(db, q);
      EditLawfulIff(db, p, q);
    }
  }

  lemma BothAmended(db: Db, z: Zone, r: Record, a: Record, b: Record, sets: RRsetKey -> seq<Record>)
    requires Integrity(db) && Stored(db.rows, z.id, r) && r.managedBy.None? && Contains(z, r.name)
    requires a == r.(ttl := a.ttl) && b == r.(ttl := b.ttl) && a != r && b != r
    ensures ResolvedAll(db, z, NO_CHANGES, [Amend(r.id, a), Amend(r.id, b)], sets) ==
            Ok(NO_CHANGES.Replace(r, a).Replace(r, b))
  {
    var ops := [Amend(r.id, a), Amend(r.id, b)];
    assert ops[..1] == [Amend(r.id, a)] && ops[..1][..0] == [];
    assert ResolvedAll(db, z, NO_CHANGES, ops[..1], sets) == Resolved(db, z, NO_CHANGES, ops[0], sets);
  }

  lemma BothUpdated(db: Db, r: Record, a: Record, b: Record)
    requires Integrity(db) && r.id in db.rows && db.rows[r.id] == r && ValidRecord(a) && ValidRecord(b)
    requires a == r.(ttl := a.ttl) && b == r.(ttl := b.ttl)
    ensures UpdateAll(db, [Update(r, a), Update(r, b)]) == Ok(db.(rows := db.rows[r.id := b]))
  {
    var us := [Update(r, a), Update(r, b)];
    var mid := db.(rows := db.rows[r.id := a]);
    assert UpdateRecord(db, a) == Ok(mid);
    var last := mid.(rows := mid.rows[r.id := b]);
    assert UpdateRecord(mid, b) == Ok(last);
    assert us[1..] == [Update(r, b)] && us[1..][1..] == [];
    assert UpdateAll(mid, us[1..]) == UpdateAll(last, us[1..][1..]);
    assert last.rows == db.rows[r.id := b];
  }

  lemma TwoUpdatesWritten(db: Db, z: Zone, c: Changes, r: Record, a: Record, b: Record)
    requires Integrity(db) && Stored(db.rows, z.id, r) && ValidRecord(a) && ValidRecord(b)
    requires a == r.(ttl := a.ttl) && b == r.(ttl := b.ttl)
    requires c.deletes == [] && c.inserts == [] && c.updates == [Update(r, a), Update(r, b)]
    ensures WriteQueue(db, Put(NO_QUEUE, z, c)) == Ok(db.(rows := db.rows[r.id := b]))
  {
    OneZoneGathers(z, c);
    BothUpdated(db, r, a, b);
    OneOrdered(r, true);
    OneOrdered(r, false);
  }

  // ---------------------------------------------------------- replacing an RRset

  /** A row that is not wanted is removed. */
  ghost predicate Dropped(existing: seq<Record>, wanted: map<RData, Record>, n: nat, r: Record)
    requires n <= |existing|
  {
    exists i :: 0 <= i < n && existing[i] == r && r.data !in wanted
  }

  /** One that is wanted otherwise than it is, is changed. */
  ghost predicate Changed(existing: seq<Record>, wanted: map<RData, Record>, n: nat, u: Update)
    requires n <= |existing|
  {
    exists i :: 0 <= i < n && existing[i] == u.before && u.before.data in wanted &&
                u.after == Kept(u.before, wanted[u.before.data]) && !SameContent(u.before, u.after)
  }

  lemma {:induction false} SettledIs(existing: seq<Record>, wanted: map<RData, Record>, n: nat)
    requires n <= |existing|
    ensures var c := Settled(NO_CHANGES, existing, wanted, n);
            && (forall r :: r in c.deletes <==> Dropped(existing, wanted, n, r))
            && (forall u :: u in c.updates <==> Changed(existing, wanted, n, u))
            && c.inserts == []
  {
    if n > 0 {
      SettledIs(existing, wanted, n - 1);
      var d, before := Settled(NO_CHANGES, existing, wanted, n - 1), existing[n - 1];
      var c := Settled(NO_CHANGES, existing, wanted, n);
      forall r
        ensures r in c.deletes <==> Dropped(existing, wanted, n, r)
      {
        assert Dropped(existing, wanted, n, r) <==> Dropped(existing, wanted, n - 1, r) || (r == before && before.data !in wanted);
      }
      forall u
        ensures u in c.updates <==> Changed(existing, wanted, n, u)
      {
        var own := u.before == before && before.data in wanted && u.after == Kept(before, wanted[before.data]) &&
                   !SameContent(before, u.after);
        assert Changed(existing, wanted, n, u) <==> Changed(existing, wanted, n - 1, u) || own;
      }
    }
  }

  ghost predicate Added(missing: set<RData>, rs: seq<Record>, n: nat, r: Record)
    requires n <= |rs|
  {
    exists i :: 0 <= i < n && rs[i] == r && r.data in missing
  }

  lemma {:induction false} CompletedIs(c: Changes, missing: set<RData>, rs: seq<Record>, n: nat)
    requires n <= |rs| && c.inserts == [] && DistinctData(rs)
    ensures var d := Completed(c, missing, rs, n);
            && d.deletes == c.deletes && d.updates == c.updates
            && (forall r :: r in d.inserts <==> Added(missing, rs, n, r))
            && DistinctData(d.inserts) && DataOf(d.inserts) <= DataOf(rs[..n])
  {
    if n > 0 {
      CompletedIs(c, missing, rs, n - 1);
      DataMore(rs, n - 1);
      var was, d := Completed(c, missing, rs, n - 1), Completed(c, missing, rs, n);
      forall r
        ensures r in d.inserts <==> Added(missing, rs, n, r)
      {
        assert Added(missing, rs, n, r) <==> Added(missing, rs, n - 1, r) || (r == rs[n - 1] && r.data in missing);
      }
      assert forall i :: 0 <= i < |was.inserts| ==> was.inserts[i].data in DataOf(was.inserts);
    }
  }

  lemma ReplaceWellQueued(rows: Rows, z: ZoneId, c: Changes, u: Update)
    requires WellQueuedIn(rows, z, c) && Stored(rows, z, u.before) && InPlace(z, u) && u.before.id !in Ids(Leaving(c))
    ensures WellQueuedIn(rows, z, c.Replace(u.before, u.after))
    ensures Ids(Leaving(c.Replace(u.before, u.after))) == Ids(Leaving(c)) + {u.before.id}
  {
    var next := c.Replace(u.before, u.after);
    assert Befores(next.updates) == Befores(c.updates) + [u.before];
    assert Leaving(next) == Leaving(c) + [u.before];
    IdsSnoc(Leaving(c), u.before);
  }

  lemma IdsSnoc(rs: seq<Record>, r: Record)
    ensures Ids(rs + [r]) == Ids(rs) + {r.id}
  {
    forall id
      ensures id in Ids(rs + [r]) <==> id in Ids(rs) + {r.id}
    {
      IdsOf(rs + [r], id);
      IdsOf(rs, id);
    }
  }

  lemma {:induction false} SettledWellQueued(rows: Rows, z: ZoneId, existing: seq<Record>, wanted: map<RData, Record>, n: nat)
    requires RowsOf(rows, z, existing) && n <= |existing| && forall d :: d in wanted ==> Writable(z, wanted[d])
    ensures var c := Settled(NO_CHANGES, existing, wanted, n);
            WellQueuedIn(rows, z, c) && Ids(Leaving(c)) <= Ids(existing[..n])
  {
    if n > 0 {
      SettledWellQueued(rows, z, existing, wanted, n - 1);
      var d, before := Settled(NO_CHANGES, existing, wanted, n - 1), existing[n - 1];
      assert existing[..n] == existing[..n - 1] + [before];
      IdsSnoc(existing[..n - 1], before);
      assert before.id !in Ids(existing[..n - 1]) by {
        IdsOf(existing[..n - 1], before.id);
      }
      if before.data in wanted {
        ReplaceWellQueued(rows, z, d, Update(before, Kept(before, wanted[before.data])));
      } else {
        RemoveWellQueued(rows, z, d, before);
        RemoveLeaves(d, before);
      }
    }
  }

  ghost predicate Asked(rows: Rows, z: ZoneId, key: RRsetKey, rs: seq<Record>, existing: seq<Record>)
  {
    RowsOk(rows) && UniqueKeys(rows) && ValidSet(z, key, rs) && ListsSet(rows, z, key, existing)
  }

  ghost predicate Difference(existing: seq<Record>, rs: seq<Record>, c: Changes)
  {
    && (forall r :: r in c.deletes <==> Dropped(existing, Wanted(rs), |existing|, r))
    && (forall u :: u in c.updates <==> Changed(existing, Wanted(rs), |existing|, u))
    && (forall r :: r in c.inserts <==> Added(DataOf(rs) - DataOf(existing), rs, |rs|, r))
    && DistinctData(c.inserts)
  }

  lemma ReplacedSetIs(rows: Rows, z: ZoneId, key: RRsetKey, rs: seq<Record>, existing: seq<Record>)
    requires Asked(rows, z, key, rs, existing)
    ensures Difference(existing, rs, ReplacedSet(NO_CHANGES, existing, rs))
    ensures WellQueuedIn(rows, z, ReplacedSet(NO_CHANGES, existing, rs))
  {
    var wanted := Wanted(rs);
    WantedWritable(z, key, rs);
    SettledIs(existing, wanted, |existing|);
    SettledWellQueued(rows, z, existing, wanted, |existing|);
    var settled := Settled(NO_CHANGES, existing, wanted, |existing|);
    CompletedIs(settled, DataOf(rs) - DataOf(existing), rs, |rs|);
    var c := ReplacedSet(NO_CHANGES, existing, rs);
    assert Leaving(c) == Leaving(settled);
    forall r | r in c.inserts
      ensures r.zone == z
    {
      assert Added(DataOf(rs) - DataOf(existing), rs, |rs|, r);
    }
  }

  /** What a wanted record is kept as. */
  lemma WantedAt(z: ZoneId, key: RRsetKey, rs: seq<Record>, d: RData) returns (i: nat)
    requires ValidSet(z, key, rs) && d in Wanted(rs)
    ensures i < |rs| && Wanted(rs)[d] == rs[i] && rs[i].data == d
  {
    WantedIs(rs);
    i :| 0 <= i < |rs| && rs[i].data == d;
    assert DistinctData(rs);
  }

  /** Whatever arrives is one of the records asked for. */
  lemma ArrivingIsAsked(rows: Rows, z: ZoneId, key: RRsetKey, rs: seq<Record>, existing: seq<Record>, c: Changes, r: Record)
    returns (i: nat)
    requires Asked(rows, z, key, rs, existing) && Difference(existing, rs, c) && r in Arriving(c)
    ensures i < |rs| && KeyOf(rs[i]) == KeyOf(r) && rs[i].ttl == r.ttl && SetKey(r) == key && r.typ != SOA
  {
    ArrivingIs(c, r);
    if r in c.inserts {
      assert Added(DataOf(rs) - DataOf(existing), rs, |rs|, r);
      i :| 0 <= i < |rs| && rs[i] == r;
    } else {
      var u :| u in c.updates && u.after == r;
      assert Changed(existing, Wanted(rs), |existing|, u);
      i := WantedAt(z, key, rs, u.before.data);
    }
  }

  lemma LeavingIsThere(rows: Rows, z: ZoneId, key: RRsetKey, rs: seq<Record>, existing: seq<Record>, c: Changes, r: Record)
    requires Asked(rows, z, key, rs, existing) && Difference(existing, rs, c) && r in Leaving(c)
    ensures r in existing && SetKey(r) == key
  {
    LeavingIs(c, r);
    if r in c.deletes {
      assert Dropped(existing, Wanted(rs), |existing|, r);
    } else {
      var u :| u in c.updates && u.before == r;
      assert Changed(existing, Wanted(rs), |existing|, u);
    }
  }

  /** A changed row keeps its key. */
  lemma ChangedKeepsKey(rows: Rows, z: ZoneId, key: RRsetKey, rs: seq<Record>, existing: seq<Record>, c: Changes, u: Update)
    requires Asked(rows, z, key, rs, existing) && Difference(existing, rs, c) && u in c.updates
    ensures KeyOf(u.after) == KeyOf(u.before) && u.before in existing
  {
    assert Changed(existing, Wanted(rs), |existing|, u);
    var i := WantedAt(z, key, rs, u.before.data);
  }

  lemma InsertedIsMissing(existing: seq<Record>, rs: seq<Record>, c: Changes, r: Record)
    requires Difference(existing, rs, c) && r in c.inserts
    ensures forall x :: x in existing ==> x.data != r.data
  {
    assert Added(DataOf(rs) - DataOf(existing), rs, |rs|, r);
    forall x | x in existing
      ensures x.data in DataOf(existing)
    {
      var i :| 0 <= i < |existing| && existing[i] == x;
    }
  }

  lemma ArrivingDistinct(rows: Rows, z: ZoneId, key: RRsetKey, rs: seq<Record>, existing: seq<Record>, c: Changes)
    requires Asked(rows, z, key, rs, existing) && Difference(existing, rs, c) && WellQueuedIn(rows, z, c)
    ensures DistinctKeys(Arriving(c))
  {
    var back, n := Arriving(c), |c.updates|;
    RowsHaveDistinctKeys(rows, z, Leaving(c));
    forall i, j | 0 <= i < j < |back|
      ensures KeyOf(back[i]) != KeyOf(back[j])
    {
      if j < n {
        ChangedKeepsKey(rows, z, key, rs, existing, c, c.updates[i]);
        ChangedKeepsKey(rows, z, key, rs, existing, c, c.updates[j]);
        assert Leaving(c)[|c.deletes| + i] == c.updates[i].before && Leaving(c)[|c.deletes| + j] == c.updates[j].before;
      } else if i < n {
        ChangedKeepsKey(rows, z, key, rs, existing, c, c.updates[i]);
        InsertedIsMissing(existing, rs, c, c.inserts[j - n]);
      } else {
        assert back[i] == c.inserts[i - n] && back[j] == c.inserts[j - n];
      }
    }
  }

  lemma ReplacementFits(rows: Rows, z: ZoneId, key: RRsetKey, rs: seq<Record>, existing: seq<Record>, c: Changes)
    requires Asked(rows, z, key, rs, existing) && Difference(existing, rs, c) && WellQueuedIn(rows, z, c)
    ensures Fits(Served(rows, z), c)
  {
    RowsHaveDistinctKeys(rows, z, Leaving(c));
    ArrivingDistinct(rows, z, key, rs, existing, c);
    forall i | 0 <= i < |Arriving(c)|
      ensures Arriving(c)[i].typ != SOA
      ensures KeyOf(Arriving(c)[i]) !in Served(rows, z).Keys - Keys(Leaving(c))
    {
      var r := Arriving(c)[i];
      var at := ArrivingIsAsked(rows, z, key, rs, existing, c, r);
      ArrivesClear(rows, z, key, rs, existing, c, r);
    }
  }

  lemma ArrivesClear(rows: Rows, z: ZoneId, key: RRsetKey, rs: seq<Record>, existing: seq<Record>, c: Changes, r: Record)
    requires Asked(rows, z, key, rs, existing) && Difference(existing, rs, c) && r in Arriving(c) && SetKey(r) == key
    ensures KeyOf(r) !in Served(rows, z).Keys - Keys(Leaving(c))
  {
    ArrivingIs(c, r);
    if r in c.inserts {
      InsertedIsMissing(existing, rs, c, r);
      if KeyOf(r) in Served(rows, z) {
        var id := ServedBy(rows, z, KeyOf(r));
      }
    } else {
      var u :| u in c.updates && u.after == r;
      ChangedKeepsKey(rows, z, key, rs, existing, c, u);
      var k :| 0 <= k < |c.updates| && c.updates[k] == u;
      assert Leaving(c)[|c.deletes| + k] == u.before;
    }
  }

  function SetOf(k: Key): RRsetKey
  {
    RRsetKey(k.name, k.cls, k.typ)
  }

  ghost predicate AskedFor(rs: seq<Record>, k: Key)
  {
    exists i :: 0 <= i < |rs| && KeyOf(rs[i]) == k
  }

  /** A row of the set that stays as it is, is one asked for as it is. */
  lemma StaysAsAsked(rows: Rows, z: ZoneId, key: RRsetKey, rs: seq<Record>, existing: seq<Record>, c: Changes, id: RecordId)
    requires Asked(rows, z, key, rs, existing) && Difference(existing, rs, c) && WellQueuedIn(rows, z, c)
    requires id in rows && rows[id].zone == z && SetKey(rows[id]) == key && KeyOf(rows[id]) !in Keys(Leaving(c))
    ensures exists i :: 0 <= i < |rs| && KeyOf(rs[i]) == KeyOf(rows[id]) && rs[i].ttl == rows[id].ttl
  {
    var r := rows[id];
    KeyMeansRow(rows, z, Leaving(c), id);
    IdsOf(Leaving(c), r.id);
    LeavingIs(c, r);
    var k :| 0 <= k < |existing| && existing[k] == r;
    assert !Dropped(existing, Wanted(rs), |existing|, r);
    var i := WantedAt(z, key, rs, r.data);
    var u := Update(r, Kept(r, rs[i]));
    assert u !in c.updates;
    assert !Changed(existing, Wanted(rs), |existing|, u);
    assert SameContent(r, u.after);
  }

  /** A record asked for is added, or is what a row is changed to, or is there. */
  lemma AskedArrivesOrStays(rows: Rows, z: ZoneId, key: RRsetKey, rs: seq<Record>, existing: seq<Record>, c: Changes, i: nat)
    requires Asked(rows, z, key, rs, existing) && Difference(existing, rs, c) && WellQueuedIn(rows, z, c) && i < |rs|
    ensures KeyOf(rs[i]) in Keys(Arriving(c)) || (KeyOf(rs[i]) in Served(rows, z) && KeyOf(rs[i]) !in Keys(Leaving(c)))
  {
    var r := rs[i];
    WantedIs(rs);
    assert r.data in DataOf(rs);
    if r.data !in DataOf(existing) {
      assert Added(DataOf(rs) - DataOf(existing), rs, |rs|, r);
      ArrivingIs(c, r);
      KeyIn(Arriving(c), r);
    } else {
      var k :| 0 <= k < |existing| && existing[k].data == r.data;
      RowAsked(rows, z, key, rs, existing, c, i, existing[k]);
    }
  }

  lemma RowAsked(rows: Rows, z: ZoneId, key: RRsetKey, rs: seq<Record>, existing: seq<Record>, c: Changes, i: nat, row: Record)
    requires Asked(rows, z, key, rs, existing) && Difference(existing, rs, c) && WellQueuedIn(rows, z, c)
    requires i < |rs| && row in existing && row.data == rs[i].data
    ensures KeyOf(rs[i]) in Keys(Arriving(c)) || (KeyOf(rs[i]) in Served(rows, z) && KeyOf(rs[i]) !in Keys(Leaving(c)))
  {
    WantedIs(rs);
    assert DistinctData(rs) && Wanted(rs)[row.data] == rs[i];
    var u := Update(row, Kept(row, rs[i]));
    if u in c.updates {
      ArrivingIs(c, u.after);
      KeyIn(Arriving(c), u.after);
    } else {
      assert !Changed(existing, Wanted(rs), |existing|, u);
      assert SameContent(row, u.after);
      ServedAt(rows, z, row.id);
      KeyMeansRow(rows, z, Leaving(c), row.id);
      NotLeaving(rows, z, key, rs, existing, c, row, u);
    }
  }

  lemma NotLeaving(rows: Rows, z: ZoneId, key: RRsetKey, rs: seq<Record>, existing: seq<Record>, c: Changes, row: Record, u: Update)
    requires Asked(rows, z, key, rs, existing) && Difference(existing, rs, c) && WellQueuedIn(rows, z, c)
    requires row in existing && row.data in Wanted(rs) && u == Update(row, Kept(row, Wanted(rs)[row.data])) && SameContent(row, u.after)
    ensures row.id !in Ids(Leaving(c))
  {
    IdsOf(Leaving(c), row.id);
    forall v | v in c.updates
      ensures v.before != row
    {
      assert Changed(existing, Wanted(rs), |existing|, v);
    }
    assert row !in c.deletes;
    LeavingIs(c, row);
    forall r | r in Leaving(c)
      ensures r.id != row.id
    {
      LeavingIsThere(rows, z, key, rs, existing, c, r);
    }
  }

  lemma KeyIn(rs: seq<Record>, r: Record)
    requires r in rs
    ensures KeyOf(r) in Keys(rs)
  {
    var i :| 0 <= i < |rs| && rs[i] == r;
  }

  /** Replacing an RRset makes it exactly the records given, each with the TTL
      given, and leaves every other set of the zone as it was. */
  lemma ReplaceMakesSet(rows: Rows, z: ZoneId, key: RRsetKey, rs: seq<Record>, existing: seq<Record>, k: Key)
    requires Asked(rows, z, key, rs, existing)
    ensures var c, was := ReplacedSet(NO_CHANGES, existing, rs), Served(rows, z);
            && Fits(was, c)
            && (k in Outcome(was, c) <==> if SetOf(k) == key then AskedFor(rs, k) else k in was)
            && (SetOf(k) != key && k in was ==> Outcome(was, c)[k] == was[k])
            && forall i :: 0 <= i < |rs| && KeyOf(rs[i]) == k ==> Outcome(was, c)[k] == rs[i].ttl
  {
    var c, was := ReplacedSet(NO_CHANGES, existing, rs), Served(rows, z);
    ReplacedSetIs(rows, z, key, rs, existing);
    ReplacementFits(rows, z, key, rs, existing, c);
    OutcomeAt(was, c, k);
    if SetOf(k) == key {
      WithinSet(rows, z, key, rs, existing, c, k);
    } else {
      OutsideSet(rows, z, key, rs, existing, c, k);
    }
  }

  lemma OutsideSet(rows: Rows, z: ZoneId, key: RRsetKey, rs: seq<Record>, existing: seq<Record>, c: Changes, k: Key)
    requires Asked(rows, z, key, rs, existing) && Difference(existing, rs, c) && SetOf(k) != key
    ensures k !in Keys(Arriving(c)) && k !in Keys(Leaving(c)) && !AskedFor(rs, k)
  {
    forall i | 0 <= i < |Arriving(c)|
      ensures KeyOf(Arriving(c)[i]) != k
    {
      var at := ArrivingIsAsked(rows, z, key, rs, existing, c, Arriving(c)[i]);
    }
    forall i | 0 <= i < |Leaving(c)|
      ensures KeyOf(Leaving(c)[i]) != k
    {
      LeavingIsThere(rows, z, key, rs, existing, c, Leaving(c)[i]);
    }
  }

  lemma WithinSet(rows: Rows, z: ZoneId, key: RRsetKey, rs: seq<Record>, existing: seq<Record>, c: Changes, k: Key)
    requires Asked(rows, z, key, rs, existing) && Difference(existing, rs, c) && WellQueuedIn(rows, z, c) && SetOf(k) == key
    requires Fits(Served(rows, z), c)
    ensures k in Outcome(Served(rows, z), c) <==> AskedFor(rs, k)
    ensures forall i :: 0 <= i < |rs| && KeyOf(rs[i]) == k ==> k in Outcome(Served(rows, z), c) && Outcome(Served(rows, z), c)[k] == rs[i].ttl
  {
    var was := Served(rows, z);
    OutcomeAt(was, c, k);
    if k in Outcome(was, c) {
      var i := OutcomeIsAsked(rows, z, key, rs, existing, c, k);
      forall j | 0 <= j < |rs| && KeyOf(rs[j]) == k
        ensures rs[j].ttl == Outcome(was, c)[k]
      {
        assert rs[j].data == rs[i].data;
      }
    }
    forall i | 0 <= i < |rs| && KeyOf(rs[i]) == k
      ensures k in Outcome(was, c)
    {
      AskedArrivesOrStays(rows, z, key, rs, existing, c, i);
    }
  }

  lemma OutcomeIsAsked(rows: Rows, z: ZoneId, key: RRsetKey, rs: seq<Record>, existing: seq<Record>, c: Changes, k: Key)
    returns (i: nat)
    requires Asked(rows, z, key, rs, existing) && Difference(existing, rs, c) && WellQueuedIn(rows, z, c) && SetOf(k) == key
    requires Fits(Served(rows, z), c) && k in Outcome(Served(rows, z), c)
    ensures i < |rs| && KeyOf(rs[i]) == k && rs[i].ttl == Outcome(Served(rows, z), c)[k]
  {
    OutcomeAt(Served(rows, z), c, k);
    if k in Keys(Arriving(c)) {
      var a :| 0 <= a < |Arriving(c)| && KeyOf(Arriving(c)[a]) == k;
      i := ArrivingIsAsked(rows, z, key, rs, existing, c, Arriving(c)[a]);
    } else {
      var id := ServedBy(rows, z, k);
      ServedAt(rows, z, id);
      StaysAsAsked(rows, z, key, rs, existing, c, id);
      i :| 0 <= i < |rs| && KeyOf(rs[i]) == k && rs[i].ttl == rows[id].ttl;
    }
  }
}
