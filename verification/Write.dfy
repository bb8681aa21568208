/** Carrying a change set out: every removal, then every update, then every
    addition, across all the zones it reaches. */
module Write {
  import opened Dns
  import opened Changes
  import opened Ordering
  import opened Store

  /** The work queued for each zone, and the order the zones were reached in. */
  datatype Queue = Queue(zones: map<ZoneId, Zone>, byZone: map<ZoneId, Changes>, order: seq<ZoneId>)
  {
    predicate Proper()
    {
      && (forall i :: 0 <= i < |order| ==> order[i] in byZone)
      && (forall z :: z in byZone ==> z in zones && zones[z].id == z)
      && (forall z {:trigger z in order} :: z in byZone ==> z in order)
      && (forall i, j :: 0 <= i < |order| && i < j < |order| ==> order[i] != order[j])
    }

    /** What is queued for a zone, which may be nothing. */
    function For(z: ZoneId): Changes
    {
      if z in byZone then byZone[z] else NO_CHANGES
    }

    predicate Empty()
    {
      forall z :: z in byZone ==> byZone[z].Empty()
    }
  }

  const NO_QUEUE := Queue(map[], map[], [])

  // ---------------------------------------------- gathered from every zone

  function Deletes(q: Queue, n: nat): seq<Record>
    requires n <= |q.order|
  {
    if n == 0 then [] else Deletes(q, n - 1) + q.For(q.order[n - 1]).deletes
  }

  function Updates(q: Queue, n: nat): seq<Update>
    requires n <= |q.order|
  {
    if n == 0 then [] else Updates(q, n - 1) + q.For(q.order[n - 1]).updates
  }

  function Inserts(q: Queue, n: nat): seq<Record>
    requires n <= |q.order|
  {
    if n == 0 then [] else Inserts(q, n - 1) + q.For(q.order[n - 1]).inserts
  }

  lemma {:induction false} InDeletes(q: Queue, n: nat, r: Record)
    requires n <= |q.order|
    ensures r in Deletes(q, n) <==> exists k :: 0 <= k < n && r in q.For(q.order[k]).deletes
  {
    if n > 0 { InDeletes(q, n - 1, r); }
  }

  lemma {:induction false} InUpdates(q: Queue, n: nat, u: Update)
    requires n <= |q.order|
    ensures u in Updates(q, n) <==> exists k :: 0 <= k < n && u in q.For(q.order[k]).updates
  {
    if n > 0 { InUpdates(q, n - 1, u); }
  }

  lemma {:induction false} InInserts(q: Queue, n: nat, r: Record)
    requires n <= |q.order|
    ensures r in Inserts(q, n) <==> exists k :: 0 <= k < n && r in q.For(q.order[k]).inserts
  {
    if n > 0 { InInserts(q, n - 1, r); }
  }

  // ------------------------------------------------------------ the writes

  function DeleteAll(db: Db, rs: seq<Record>): Result<Db>
    decreases |rs|
  {
    if rs == [] then Ok(db)
    else
      match DeleteRecord(db, rs[0].id)
      case Err(why) => Err(why)
      case Ok(next) => DeleteAll(next, rs[1..])
  }

  function UpdateAll(db: Db, us: seq<Update>): Result<Db>
    decreases |us|
  {
    if us == [] then Ok(db)
    else
      match UpdateRecord(db, us[0].after)
      case Err(why) => Err(why)
      case Ok(next) => UpdateAll(next, us[1..])
  }

  function InsertAll(db: Db, rs: seq<Record>): Result<Db>
    decreases |rs|
  {
    if rs == [] then Ok(db)
    else
      match InsertRecord(db, rs[0])
      case Err(why) => Err(why)
      case Ok(next) => InsertAll(next, rs[1..])
  }

  function WriteQueue(db: Db, q: Queue): Result<Db>
  {
    match DeleteAll(db, Ordered(Deletes(q, |q.order|), true))
    case Err(why) => Err(why)
    case Ok(less) =>
      match UpdateAll(less, Updates(q, |q.order|))
      case Err(why) => Err(why)
      case Ok(same) => InsertAll(same, Ordered(Inserts(q, |q.order|), false))
  }

  // -------------------------------------------------------- what goes away

  lemma IdsCons(rs: seq<Record>)
    requires rs != []
    ensures Ids(rs) == {rs[0].id} + Ids(rs[1..])
  {
    forall id | id in Ids(rs)
      ensures id in {rs[0].id} + Ids(rs[1..])
    {
      var i :| 0 <= i < |rs| && id == rs[i].id;
      if i > 0 { assert rs[1..][i - 1] == rs[i]; }
    }
  }

  lemma IdsOf(rs: seq<Record>, id: RecordId)
    ensures id in Ids(rs) <==> exists r :: r in rs && r.id == id
  {
    if r :| r in rs && r.id == id {
      var i :| 0 <= i < |rs| && rs[i] == r;
      assert rs[i].id == id;
    }
  }

  lemma SameIds(a: seq<Record>, b: seq<Record>)
    requires multiset(a) == multiset(b)
    ensures Ids(a) == Ids(b)
  {
    forall id
      ensures id in Ids(a) <==> id in Ids(b)
    {
      IdsOf(a, id);
      IdsOf(b, id);
      assert forall r :: r in a <==> r in multiset(a);
      assert forall r :: r in b <==> r in multiset(b);
    }
  }

  /** Deletions that go through take the queued rows and all that hangs off them. */
  lemma {:induction false} DeletesCascade(db: Db, rs: seq<Record>)
    ensures DeleteAll(db, rs).Ok? ==>
              DeleteAll(db, rs) == Ok(db.(rows := db.rows - Cascade(db.rows, Ids(rs))))
    decreases |rs|
  {
    if rs == [] {
      assert Ids(rs) == {};
      CascadeIsLeast(db.rows, {}, {});
      assert db.rows - {} == db.rows;
    } else if DeleteRecord(db, rs[0].id).Ok? {
      var next := DeleteRecord(db, rs[0].id).value;
      DeletesCascade(next, rs[1..]);
      IdsCons(rs);
      var first := Cascade(db.rows, {rs[0].id});
      CascadeInSteps(db.rows, {rs[0].id}, Ids(rs[1..]));
      assert next.rows == db.rows - first;
      assert next.rows - Cascade(next.rows, Ids(rs[1..])) == db.rows - Cascade(db.rows, Ids(rs));
    }
  }

  ghost predicate Present(rows: Rows, rs: seq<Record>)
  {
    forall i :: 0 <= i < |rs| ==> rs[i].id in rows && rows[rs[i].id] == rs[i]
  }

  /** Of a closed set, in order, the first takes nothing with it. */
  lemma FirstGoesAlone(rows: Rows, rs: seq<Record>)
    requires rs != [] && Present(rows, rs) && InOrder(rs, true) && Closed(rows, Ids(rs))
    ensures Cascade(rows, {rs[0].id}) == {rs[0].id}
  {
    var first := {rs[0].id};
    forall id | id in Below(rows, first)
      ensures id in first
    {
      assert rs[0].id in Ids(rs);
      assert id in Below(rows, Ids(rs));
      var j :| 0 <= j < |rs| && rs[j].id == id;
      assert HangsOff(rs[j], rs[0]);
      assert j > 0 ==> Precedes(rs[j], rs[0], true);
    }
    ClosedIffNoMore(rows, first);
  }

  lemma ClosedRest(rows: Rows, rs: seq<Record>)
    requires rs != [] && UniqueIds(rs) && Closed(rows, Ids(rs))
    ensures Closed(rows - {rs[0].id}, Ids(rs[1..]))
  {
    IdsCons(rs);
    var rest := rows - {rs[0].id};
    assert Below(rest, Ids(rs[1..])) <= Below(rows, Ids(rs));
  }

  /** Dependents first, a closed set goes without a refusal. */
  lemma {:induction false} OrderedDeletesSucceed(db: Db, rs: seq<Record>)
    requires UniqueIds(rs) && Present(db.rows, rs) && InOrder(rs, true) && Closed(db.rows, Ids(rs))
    ensures DeleteAll(db, rs) == Ok(db.(rows := db.rows - Ids(rs)))
    decreases |rs|
  {
    if rs == [] {
      assert Ids(rs) == {};
      assert db.rows - {} == db.rows;
    } else {
      FirstGoesAlone(db.rows, rs);
      ClosedRest(db.rows, rs);
      var next := db.(rows := db.rows - {rs[0].id});
      assert DeleteRecord(db, rs[0].id) == Ok(next);
      RestStays(db.rows, rs);
      OrderedDeletesSucceed(next, rs[1..]);
      IdsCons(rs);
      assert next.rows - Ids(rs[1..]) == db.rows - Ids(rs);
    }
  }

  lemma RestStays(rows: Rows, rs: seq<Record>)
    requires rs != [] && UniqueIds(rs) && Present(rows, rs) && InOrder(rs, true)
    ensures UniqueIds(rs[1..]) && Present(rows - {rs[0].id}, rs[1..]) && InOrder(rs[1..], true)
  {
  }

  /** Links among rows lead towards lower ranks. */
  ghost predicate Descends(rows: Rows, rank: RecordId -> nat)
  {
    forall id :: id in rows && rows[id].managedBy.Some? ==> rank(rows[id].managedBy.value) < rank(id)
  }

  ghost predicate Acyclic(rows: Rows)
  {
    exists rank :: Descends(rows, rank)
  }

  lemma HeldIsForest(rows: Rows, rs: seq<Record>)
    requires Acyclic(rows) && RowsOk(rows) && Present(rows, rs) && UniqueIds(rs)
    ensures Forest(rs)
  {
    var rank :| Descends(rows, rank);
    forall a, b | a in rs && b in rs && HangsOff(a, b)
      ensures rank(b.id) < rank(a.id)
    {
      assert rows[a.id] == a;
    }
    assert Ranked(rs, rank);
  }

  lemma OrderedKeeps(all: seq<Record>, dependentsFirst: bool)
    requires UniqueIds(all)
    ensures UniqueIds(Ordered(all, dependentsFirst)) && Ids(Ordered(all, dependentsFirst)) == Ids(all)
    ensures forall r :: r in Ordered(all, dependentsFirst) <==> r in all
  {
    var out := Ordered(all, dependentsFirst);
    OrderedIsPermutation(all, dependentsFirst);
    SameIds(out, all);
    assert forall r :: r in out <==> r in multiset(out);
    assert forall r :: r in all <==> r in multiset(all);
    UniqueOnceEach(all, out);
  }

  /** Distinct identifiers survive any reordering. */
  lemma UniqueOnceEach(a: seq<Record>, b: seq<Record>)
    requires UniqueIds(a) && multiset(a) == multiset(b)
    ensures UniqueIds(b)
  {
    forall i, j | 0 <= i < j < |b|
      ensures b[i].id != b[j].id
    {
      assert b[i] in multiset(b) && b[j] in multiset(b);
      var k :| 0 <= k < |a| && a[k] == b[i];
      var l :| 0 <= l < |a| && a[l] == b[j];
      OnceIn(a, k);
      TwiceIn(b, i, j);
    }
  }

  lemma TwiceIn(s: seq<Record>, i: nat, j: nat)
    requires i < j < |s|
    ensures s[i] == s[j] ==> multiset(s)[s[i]] >= 2
  {
    assert s == s[..j] + [s[j]] + s[j + 1..];
    assert multiset(s) == multiset(s[..j]) + multiset{s[j]} + multiset(s[j + 1..]);
    assert s[..j][i] == s[i];
    assert s[i] in multiset(s[..j]);
  }

  lemma OnceIn(s: seq<Record>, k: nat)
    requires k < |s| && UniqueIds(s)
    ensures multiset(s)[s[k]] == 1
  {
    assert s == s[..k] + [s[k]] + s[k + 1..];
    assert multiset(s) == multiset(s[..k]) + multiset{s[k]} + multiset(s[k + 1..]);
    assert s[k] !in s[..k];
    assert s[k] !in s[k + 1..];
  }

  /** The removals a queue holds take out exactly the queued rows if and only if
      nothing left behind hangs off them; then they also never fail. */
  lemma DeletesExactIffClosed(db: Db, rs: seq<Record>)
    requires Integrity(db) && Acyclic(db.rows) && UniqueIds(rs) && Present(db.rows, rs)
    ensures DeleteAll(db, Ordered(rs, true)) == Ok(db.(rows := db.rows - Ids(rs))) <==> Closed(db.rows, Ids(rs))
  {
    var out := Ordered(rs, true);
    OrderedKeeps(rs, true);
    if Closed(db.rows, Ids(rs)) {
      HeldIsForest(db.rows, rs);
      OrderedIsInOrder(rs, true);
      forall i | 0 <= i < |out|
        ensures out[i].id in db.rows && db.rows[out[i].id] == out[i]
      {
        assert out[i] in rs;
      }
      OrderedDeletesSucceed(db, out);
    } else {
      DeletesCascade(db, out);
      ClosedIffNoMore(db.rows, Ids(rs));
      var extra :| extra in Cascade(db.rows, Ids(rs)) && extra !in Ids(rs);
      assert extra in db.rows - Ids(rs);
      assert extra !in db.rows - Cascade(db.rows, Ids(rs));
    }
  }
}
