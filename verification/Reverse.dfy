/** Retiring what a record generated: everything below it, however deep. */
module Reverse {
  import opened Dns
  import opened Changes
  import opened Ordering
  import opened Store
  import opened Write
  import opened Carry
  import opened Upkeep
  import opened Queues

  /** The store a plan is made against, and where reverse names live in it. */
  datatype World = World(
    db: Db,
    below: RecordId -> seq<Record>,             // the rows generated from one
    zoneFor: Address -> Option<Zone>,           // the most specific reverse zone
    ownerIn: (ZoneId, Address) -> Name,         // an address's name in that zone
    plain: Address -> Name,                     // its ordinary reverse name
    named: Name -> Option<Zone>,
    automatic: bool)                            // what a zone that does not say inherits
  {
    /** Whether reverse entries are generated for a zone. */
    predicate Automates(z: ZoneId)
    {
      z in db.zones && if db.zones[z].autoReverse.Some? then db.zones[z].autoReverse.value else automatic
    }

    ghost predicate Valid()
    {
      && Integrity(db) && Acyclic(db.rows)
      && (forall id :: Lists(db.rows, id, below(id)))
      && Placed()
    }

    /** The zones these functions name are there. */
    ghost predicate Placed()
    {
      && (forall a :: zoneFor(a).Some? ==> Holds(zoneFor(a).value))
      && (forall n :: named(n).Some? ==> Holds(named(n).value))
    }

    predicate Holds(z: Zone)
    {
      z.id in db.zones && db.zones[z.id] == z
    }
  }

  /** The rows generated from one, each once. */
  ghost predicate Lists(rows: Rows, id: RecordId, rs: seq<Record>)
  {
    UniqueIds(rs) && Present(rows, rs) && Ids(rs) == Below(rows, {id})
  }

  // --------------------------------------------------------- queued removals

  function RemoveOne(db: Db, q: Queue, r: Record): Queue
  {
    if r.zone in db.zones then Put(q, db.zones[r.zone], q.For(r.zone).Remove(r)) else q
  }

  function RemoveEach(db: Db, q: Queue, rs: seq<Record>): Queue
  {
    if rs == [] then q else RemoveOne(db, RemoveEach(db, q, rs[..|rs| - 1]), rs[|rs| - 1])
  }

  lemma {:induction false} RemoveEachInStep(db: Db, q: Queue, rs: seq<Record>)
    requires AllInStep(q)
    ensures AllInStep(RemoveEach(db, q, rs))
  {
    if rs != [] {
      var mid, r := RemoveEach(db, q, rs[..|rs| - 1]), rs[|rs| - 1];
      RemoveEachInStep(db, q, rs[..|rs| - 1]);
      if r.zone in db.zones {
        RemoveInStep(mid.For(r.zone), r);
        PutInStep(mid, db.zones[r.zone], mid.For(r.zone).Remove(r));
      }
    }
  }

  lemma RemoveEachMore(db: Db, q: Queue, rs: seq<Record>, r: Record)
    ensures RemoveEach(db, q, rs + [r]) == RemoveOne(db, RemoveEach(db, q, rs), r)
  {
    assert (rs + [r])[..|rs|] == rs;
  }

  lemma {:induction false} RemoveEachConcat(db: Db, q: Queue, a: seq<Record>, b: seq<Record>)
    ensures RemoveEach(db, q, a + b) == RemoveEach(db, RemoveEach(db, q, a), b)
    decreases |b|
  {
    if b == [] {
      assert a + b == a;
    } else {
      var front, r := b[..|b| - 1], b[|b| - 1];
      RemoveEachConcat(db, q, a, front);
      assert b == front + [r] && a + b == (a + front) + [r];
      RemoveEachMore(db, q, a + front, r);
      RemoveEachMore(db, RemoveEach(db, q, a), front, r);
    }
  }

  // ---------------------------------------------------- sweeping the links

  function IdList(rs: seq<Record>): seq<RecordId>
  {
    seq(|rs|, i requires 0 <= i < |rs| => rs[i].id)
  }

  ghost function SetOf(ids: seq<RecordId>): set<RecordId>
  {
    set i | 0 <= i < |ids| :: ids[i]
  }

  lemma SetOfIdList(rs: seq<Record>)
    ensures SetOf(IdList(rs)) == Ids(rs)
  {
    forall id | id in Ids(rs)
      ensures id in SetOf(IdList(rs))
    {
      var i :| 0 <= i < |rs| && rs[i].id == id;
      assert IdList(rs)[i] == id;
    }
    forall id | id in SetOf(IdList(rs))
      ensures id in Ids(rs)
    {
      var i :| 0 <= i < |rs| && IdList(rs)[i] == id;
    }
  }

  lemma SetOfConcat(a: seq<RecordId>, b: seq<RecordId>)
    ensures SetOf(a + b) == SetOf(a) + SetOf(b)
  {
    forall id | id in SetOf(a) + SetOf(b)
      ensures id in SetOf(a + b)
    {
      if id in SetOf(a) {
        var i :| 0 <= i < |a| && a[i] == id;
        assert (a + b)[i] == id;
      } else {
        var i :| 0 <= i < |b| && b[i] == id;
        assert (a + b)[|a| + i] == id;
      }
    }
    forall id | id in SetOf(a + b)
      ensures id in SetOf(a) + SetOf(b)
    {
      var i :| 0 <= i < |a + b| && (a + b)[i] == id;
      if i < |a| { assert a[i] == id; } else { assert b[i - |a|] == id; }
    }
  }

  lemma IdsConcat(a: seq<Record>, b: seq<Record>)
    ensures Ids(a + b) == Ids(a) + Ids(b)
  {
    SetOfIdList(a);
    SetOfIdList(b);
    SetOfIdList(a + b);
    assert IdList(a + b) == IdList(a) + IdList(b);
    SetOfConcat(IdList(a), IdList(b));
  }

  ghost predicate Distinct(ids: seq<RecordId>)
  {
    forall i, j :: 0 <= i < j < |ids| ==> ids[i] != ids[j]
  }

  /** Part way down from a record: what is done, what is waiting, and what has
      been queued for removal. */
  ghost predicate Sweeping(rows: Rows, root: RecordId, done: set<RecordId>, waiting: seq<RecordId>, out: seq<Record>)
  {
    && UniqueIds(out) && Present(rows, out)
    && Distinct(waiting) && done !! SetOf(waiting)
    && root in done + SetOf(waiting)
    && Ids(out) == done + SetOf(waiting) - {root}
    && Below(rows, done) <= done + SetOf(waiting)
    && Ids(out) <= Below(rows, done)
    && done + SetOf(waiting) <= Cascade(rows, {root})
  }

  /** No record is below itself. */
  lemma NotBelowItself(rows: Rows, root: RecordId)
    requires Acyclic(rows)
    ensures root !in Below(rows, Cascade(rows, {root}))
  {
    var rank :| Descends(rows, rank);
    var lower := set id | id in rows.Keys + {root} && rank(id) >= rank(root);
    assert Closed(rows, lower) by {
      forall id | id in Below(rows, lower)
        ensures id in lower
      {
        assert rank(rows[id].managedBy.value) >= rank(root);
      }
    }
    CascadeIsLeast(rows, {root}, lower);
  }

  lemma NewBelow(rows: Rows, root: RecordId, done: set<RecordId>, waiting: seq<RecordId>, out: seq<Record>)
    requires Acyclic(rows) && waiting != [] && Sweeping(rows, root, done, waiting, out)
    ensures Below(rows, {waiting[0]}) !! done + SetOf(waiting)
  {
    var next := waiting[0];
    assert next in SetOf(waiting);
    NotBelowItself(rows, root);
    forall id | id in Below(rows, {next})
      ensures id !in done + SetOf(waiting)
    {
      assert rows[id].managedBy == Some(next);
      assert next in Cascade(rows, {root});
      assert id in Below(rows, Cascade(rows, {root}));
      assert id in done + SetOf(waiting) ==> id in Ids(out);
      assert id in Ids(out) ==> id in Below(rows, done);
    }
  }

  lemma SweepStep(rows: Rows, root: RecordId, done: set<RecordId>, waiting: seq<RecordId>, out: seq<Record>, derived: seq<Record>)
    requires Acyclic(rows) && waiting != [] && Sweeping(rows, root, done, waiting, out) && Lists(rows, waiting[0], derived)
    ensures Sweeping(rows, root, done + {waiting[0]}, waiting[1..] + IdList(derived), out + derived)
  {
    var next, rest := waiting[0], waiting[1..];
    var found := IdList(derived);
    assert waiting == [next] + rest;
    SetOfConcat([next], rest);
    assert SetOf([next]) == {next} by { assert [next][0] == next; }
    assert next !in SetOf(rest);
    NewBelow(rows, root, done, waiting, out);
    SetOfIdList(derived);
    SetOfConcat(rest, found);
    IdsConcat(out, derived);
    UniqueBoth(out, derived);
    assert done + {next} + SetOf(rest + found) == done + SetOf(waiting) + Below(rows, {next});
    assert Below(rows, done + {next}) == Below(rows, done) + Below(rows, {next});
    assert Below(rows, {next}) <= Below(rows, Cascade(rows, {root}));
    DistinctBoth(rest, found);
    assert root !in Below(rows, {next});
  }

  lemma DistinctBoth(a: seq<RecordId>, b: seq<RecordId>)
    requires Distinct(a) && Distinct(b) && SetOf(a) !! SetOf(b)
    ensures Distinct(a + b)
  {
    forall i, j | 0 <= i < j < |a + b|
      ensures (a + b)[i] != (a + b)[j]
    {
      if i < |a| && j >= |a| {
        assert a[i] in SetOf(a) && b[j - |a|] in SetOf(b);
      }
    }
  }

  /** Everything generated from a record, however deep, each once. */
  ghost predicate Retired(rows: Rows, root: RecordId, out: seq<Record>)
  {
    UniqueIds(out) && Present(rows, out) && Ids(out) == Cascade(rows, {root}) - {root}
  }

  lemma SweptAll(rows: Rows, root: RecordId, done: set<RecordId>, out: seq<Record>)
    requires Sweeping(rows, root, done, [], out)
    ensures Retired(rows, root, out)
  {
    assert SetOf([]) == {};
    CascadeIsLeast(rows, {root}, done);
  }

  // ------------------------------------------------------- several roots

  /** Rows nobody generated. */
  ghost predicate Authored(rows: Rows, ids: set<RecordId>)
  {
    forall id :: id in ids && id in rows ==> rows[id].managedBy.None?
  }

  /** What a cascade adds hangs off what it has. */
  lemma AddedHangs(rows: Rows, gone: set<RecordId>)
    ensures Cascade(rows, gone) - gone <= Below(rows, Cascade(rows, gone))
  {
    var all := Cascade(rows, gone);
    var held := set id | id in all && (id in gone || id in Below(rows, all));
    assert Closed(rows, held) by {
      assert Below(rows, held) <= Below(rows, all);
    }
    CascadeIsLeast(rows, gone, held);
  }

  /** Of two sets of authored rows, each takes its own. */
  lemma AuthoredApart(rows: Rows, a: set<RecordId>, b: set<RecordId>)
    requires a !! b && Authored(rows, a) && Authored(rows, b)
    ensures Cascade(rows, a) !! Cascade(rows, b)
  {
    var mine, theirs := Cascade(rows, a), Cascade(rows, b);
    AddedHangs(rows, b);
    var rest := mine - theirs;
    assert Closed(rows, rest) by {
      forall id | id in Below(rows, rest)
        ensures id in rest
      {
        assert id in Below(rows, mine);
        assert id in theirs ==> id in theirs - b;
        assert id in theirs - b ==> id in Below(rows, theirs);
      }
    }
    forall id | id in a
      ensures id in rest
    {
      assert id in theirs - b ==> id in Below(rows, theirs);
    }
    CascadeIsLeast(rows, a, rest);
  }

  lemma CascadeBoth(rows: Rows, a: set<RecordId>, b: set<RecordId>)
    ensures Cascade(rows, a + b) == Cascade(rows, a) + Cascade(rows, b)
  {
    var both := Cascade(rows, a) + Cascade(rows, b);
    assert Below(rows, both) == Below(rows, Cascade(rows, a)) + Below(rows, Cascade(rows, b));
    CascadeIsLeast(rows, a + b, both);
    CascadeIsLeast(rows, a, Cascade(rows, a + b));
    CascadeIsLeast(rows, b, Cascade(rows, a + b));
  }

  /** Everything generated from any of these, each once. */
  ghost predicate RetiredAll(rows: Rows, roots: set<RecordId>, out: seq<Record>)
  {
    UniqueIds(out) && Present(rows, out) && Ids(out) == Cascade(rows, roots) - roots
  }

  lemma RetiredMore(rows: Rows, roots: set<RecordId>, root: RecordId, out: seq<Record>, more: seq<Record>)
    requires Authored(rows, roots + {root}) && root !in roots
    requires RetiredAll(rows, roots, out) && Retired(rows, root, more)
    ensures RetiredAll(rows, roots + {root}, out + more)
  {
    AuthoredApart(rows, roots, {root});
    CascadeBoth(rows, roots, {root});
    IdsConcat(out, more);
    UniqueBoth(out, more);
  }

  // ------------------------------------------ what removals do to a queue

  /** Nothing but the removals differs. */
  ghost predicate OnlyRemoved(q: Queue, next: Queue)
  {
    forall z :: next.For(z).updates == q.For(z).updates && next.For(z).inserts == q.For(z).inserts
             && next.For(z).claims == q.For(z).claims && next.For(z).soa == q.For(z).soa
  }

  /** Rows that no change of their zone names yet. */
  ghost predicate Unnamed(q: Queue, rs: seq<Record>)
  {
    forall r :: r in rs ==> r.id !in Ids(Leaving(q.For(r.zone)))
  }

  /** These removals joined the queue, and nothing else. */
  ghost predicate Lost(q: Queue, next: Queue, rs: seq<Record>)
  {
    && OnlyRemoved(q, next)
    && (forall z :: Ids(Leaving(next.For(z))) <= Ids(Leaving(q.For(z))) + Ids(rs))
    && (forall s :: Removes(next, s) <==> Removes(q, s) || s in rs)
  }

  lemma NothingLost(q: Queue)
    ensures Lost(q, q, [])
  {
    assert Ids([]) == {};
  }

  lemma LostMore(q: Queue, mid: Queue, next: Queue, front: seq<Record>, r: Record)
    requires Lost(q, mid, front) && Lost(mid, next, [r])
    ensures Lost(q, next, front + [r])
  {
    IdsConcat(front, [r]);
    forall z
      ensures Ids(Leaving(next.For(z))) <= Ids(Leaving(q.For(z))) + Ids(front + [r])
    {
      assert Ids(Leaving(mid.For(z))) <= Ids(Leaving(q.For(z))) + Ids(front);
    }
  }

  lemma RemoveOneLost(db: Db, q: Queue, r: Record)
    requires q.Proper() && r.zone in db.zones && db.zones[r.zone].id == r.zone
    ensures RemoveOne(db, q, r).Proper() && Lost(q, RemoveOne(db, q, r), [r])
  {
    var z, c := db.zones[r.zone], q.For(r.zone);
    PutProper(q, z, c.Remove(r));
    RemoveLeaves(c, r);
    assert r.id in Ids([r]) by { assert [r][0] == r; }
    forall s
      ensures Removes(RemoveOne(db, q, r), s) <==> Removes(q, s) || s in [r]
    {
      RemovesPut(q, z, c, r, s);
    }
  }

  lemma OneMoreLost(db: Db, q: Queue, mid: Queue, next: Queue, front: seq<Record>, r: Record, rs: seq<Record>)
    requires Integrity(db) && r.id in db.rows && db.rows[r.id] == r && rs == front + [r]
    requires mid.Proper() && Lost(q, mid, front) && next == RemoveOne(db, mid, r)
    ensures next.Proper() && Lost(q, next, rs)
  {
    RemoveOneLost(db, mid, r);
    LostMore(q, mid, next, front, r);
  }

  lemma LastRemoved(db: Db, q: Queue, rs: seq<Record>, next: Queue) returns (front: seq<Record>, r: Record, mid: Queue)
    requires rs != [] && Present(db.rows, rs) && next == RemoveEach(db, q, rs)
    ensures rs == front + [r] && Present(db.rows, front) && r.id in db.rows && db.rows[r.id] == r
    ensures mid == RemoveEach(db, q, front) && next == RemoveOne(db, mid, r)
  {
    front, r := rs[..|rs| - 1], rs[|rs| - 1];
    mid := RemoveEach(db, q, front);
  }

  /** Whatever else the queue names, these removals join it and nothing else. */
  lemma {:induction false} RemoveEachLost(db: Db, q: Queue, rs: seq<Record>)
    requires Integrity(db) && q.Proper() && Present(db.rows, rs)
    ensures RemoveEach(db, q, rs).Proper() && Lost(q, RemoveEach(db, q, rs), rs)
  {
    if rs == [] {
      NothingLost(q);
    } else {
      var front, r, mid := LastRemoved(db, q, rs, RemoveEach(db, q, rs));
      RemoveEachLost(db, q, front);
      OneMoreLost(db, q, mid, RemoveEach(db, q, rs), front, r, rs);
    }
  }

  lemma RemoveOnePlanned(db: Db, q: Queue, r: Record)
    requires Integrity(db) && WellPlanned(db, q) && r.id in db.rows && db.rows[r.id] == r
    requires r.id !in Ids(Leaving(q.For(r.zone)))
    ensures WellPlanned(db, RemoveOne(db, q, r))
  {
    var z, c := db.zones[r.zone], q.For(r.zone);
    Queued(db.rows, q, r.zone);
    RemoveWellQueued(db.rows, r.zone, c, r);
    assert r.zone in q.byZone ==> AsRead(db, q, r.zone);
    PutWellPlanned(db, q, z, c.Remove(r));
  }

  lemma LastUnnamed(q: Queue, mid: Queue, rs: seq<Record>)
    requires rs != [] && UniqueIds(rs) && Unnamed(q, rs) && Lost(q, mid, rs[..|rs| - 1])
    ensures rs[|rs| - 1].id !in Ids(Leaving(mid.For(rs[|rs| - 1].zone)))
  {
    var front, r := rs[..|rs| - 1], rs[|rs| - 1];
    assert r in rs && r.id !in Ids(front);
    assert Ids(Leaving(mid.For(r.zone))) <= Ids(Leaving(q.For(r.zone))) + Ids(front);
  }

  lemma {:induction false} RemoveEachPlanned(db: Db, q: Queue, rs: seq<Record>)
    requires Integrity(db) && WellPlanned(db, q) && UniqueIds(rs) && Present(db.rows, rs) && Unnamed(q, rs)
    ensures WellPlanned(db, RemoveEach(db, q, rs)) && Lost(q, RemoveEach(db, q, rs), rs)
  {
    RemoveEachLost(db, q, rs);
    if rs != [] {
      var front, r := rs[..|rs| - 1], rs[|rs| - 1];
      RemoveEachPlanned(db, q, front);
      var mid := RemoveEach(db, q, front);
      LastUnnamed(q, mid, rs);
      RemoveOnePlanned(db, mid, r);
    }
  }
}
