/** Reconciling a zone: entries that are overtaken are retired, missing ones are
    generated, and what a second pass directly afterwards would do. */
module Reconcile {
  import opened Dns
  import opened Changes
  import opened Ordering
  import opened Store
  import opened Write
  import opened Carry
  import opened Upkeep
  import opened Queues
  import opened Reverse
  import opened Generation
  import opened Expansion

  // --------------------------------------------------------- where entries go

  /** One place in a reverse zone, and the name that has to be answered there, where
      any will not do. */
  datatype Spot = Spot(zone: ZoneId, name: Name, answer: Option<Name>)

  /** Where a record's entry belongs, whether or not it gets one. */
  function Place(w: World, s: Record): Option<Spot>
  {
    if AddressOf(s).None? || w.zoneFor(AddressOf(s).value).None? then None
    else
      var addr := AddressOf(s).value;
      var rev := w.zoneFor(addr).value;
      Some(Spot(rev.id, w.ownerIn(rev.id, addr), None))
  }

  /** Where a record that has an entry has it. With several names for an address, each
      has to be answered. */
  function SpotOf(w: World, policy: Policy, s: Record): Option<Spot>
  {
    if !Reverses(s) || Place(w, s).None? then None
    else Some(Place(w, s).value.(answer := if policy == Multi then Some(s.name) else None))
  }

  predicate OfKind(policy: Policy, t: Spot)
  {
    t.answer.Some? <==> policy == Multi
  }

  predicate SitsAt(r: Record, t: Spot)
  {
    && r.zone == t.zone && SetKey(r) == RRsetKey(t.name, CLASS_IN, PTR)
    && (t.answer.Some? ==> r.data == NameData(t.answer.value))
  }

  predicate Belongs(d: Record, t: Spot)
  {
    d.zone == t.zone && d.typ == PTR && d.name == t.name
  }

  /** What a record generated that is not where it belongs. */
  function Stale(w: World, s: Record): set<RecordId>
  {
    match Place(w, s)
    case None => {}
    case Some(t) => set id | id in Below(w.db.rows, {s.id}) && !Belongs(w.db.rows[id], t)
  }

  function Holders(rows: Rows, t: Spot): set<RecordId>
  {
    set id | id in rows && SitsAt(rows[id], t)
  }

  /** What the first n records have retired. */
  function Overtaken(w: World, sources: seq<Record>, n: nat): set<RecordId>
    requires n <= |sources|
  {
    if n == 0 then {} else Overtaken(w, sources, n - 1) + Cascade(w.db.rows, Stale(w, sources[n - 1]))
  }

  /** When this record's turn comes, everything stored at its spot is on its way out. */
  predicate Opens(w: World, policy: Policy, sources: seq<Record>, k: nat, t: Spot)
    requires k < |sources|
  {
    SpotOf(w, policy, sources[k]) == Some(t) && Holders(w.db.rows, t) <= Overtaken(w, sources, k + 1)
  }

  predicate Filled(w: World, policy: Policy, sources: seq<Record>, n: nat, t: Spot)
    requires n <= |sources|
  {
    exists k :: 0 <= k < n && Opens(w, policy, sources, k, t)
  }

  /** And no earlier record found it so. */
  predicate OpensFirst(w: World, policy: Policy, sources: seq<Record>, k: nat, t: Spot)
    requires k < |sources|
  {
    Opens(w, policy, sources, k, t) && !Filled(w, policy, sources, k, t)
  }

  // ------------------------------------------------------------- the sources

  /** Stored address records, each once, that nobody generated. */
  ghost predicate Sources(rows: Rows, sources: seq<Record>)
  {
    UniqueIds(sources) && Present(rows, sources) && forall s :: s in sources ==> s.managedBy.None? && s.managedKind.None?
  }

  lemma StaleBelow(w: World, s: Record)
    ensures Cascade(w.db.rows, Stale(w, s)) <= Cascade(w.db.rows, {s.id})
  {
    assert Stale(w, s) <= Below(w.db.rows, Cascade(w.db.rows, {s.id}));
    CascadeIsLeast(w.db.rows, Stale(w, s), Cascade(w.db.rows, {s.id}));
  }

  lemma {:induction false} GoneBelow(w: World, sources: seq<Record>, n: nat)
    requires n <= |sources|
    ensures Overtaken(w, sources, n) <= Cascade(w.db.rows, Ids(sources[..n]))
  {
    if n > 0 {
      GoneBelow(w, sources, n - 1);
      StaleBelow(w, sources[n - 1]);
      IdsUpTo(sources, n);
      CascadeBoth(w.db.rows, Ids(sources[..n - 1]), {sources[n - 1].id});
    }
  }

  lemma IdsUpTo(sources: seq<Record>, n: nat)
    requires 0 < n <= |sources|
    ensures Ids(sources[..n]) == Ids(sources[..n - 1]) + {sources[n - 1].id}
  {
    var last := sources[n - 1];
    assert sources[..n] == sources[..n - 1] + [last];
    IdsConcat(sources[..n - 1], [last]);
    assert Ids([last]) == {last.id} by { assert [last][0] == last; }
  }

  /** A record retires nothing an earlier one retired. */
  lemma RetiresItsOwn(w: World, sources: seq<Record>, n: nat)
    requires Sources(w.db.rows, sources) && n < |sources|
    ensures Overtaken(w, sources, n) !! Cascade(w.db.rows, Stale(w, sources[n]))
  {
    var s := sources[n];
    GoneBelow(w, sources, n);
    StaleBelow(w, s);
    assert s.id !in Ids(sources[..n]);
    forall id | id in Ids(sources[..n]) && id in w.db.rows
      ensures w.db.rows[id].managedBy.None?
    {
      var i :| 0 <= i < n && sources[i].id == id;
      assert sources[i] in sources;
    }
    assert s in sources;
    AuthoredApart(w.db.rows, Ids(sources[..n]), {s.id});
  }

  lemma {:induction false} GoneGrows(w: World, sources: seq<Record>, k: nat, n: nat)
    requires k <= n <= |sources|
    ensures Overtaken(w, sources, k) <= Overtaken(w, sources, n)
    decreases n
  {
    if k < n { GoneGrows(w, sources, k, n - 1); }
  }

  lemma {:induction false} GoneStored(w: World, sources: seq<Record>, n: nat)
    requires n <= |sources|
    ensures forall id :: id in Overtaken(w, sources, n) ==> id in w.db.rows && w.db.rows[id].managedBy.Some?
  {
    if n > 0 {
      GoneStored(w, sources, n - 1);
      var stale := Stale(w, sources[n - 1]);
      AddedHangs(w.db.rows, stale);
      forall id | id in Cascade(w.db.rows, stale)
        ensures id in w.db.rows && w.db.rows[id].managedBy.Some?
      {
        assert id in stale || id in Below(w.db.rows, Cascade(w.db.rows, stale));
      }
    }
  }

  // -------------------------------------------------- retiring what is stale

  /** Of a record's own derivatives, each takes its own. */
  lemma SiblingsApart(rows: Rows, s: RecordId, a: set<RecordId>, d: RecordId)
    requires Authored(rows, {s}) && a <= Below(rows, {s}) && d in Below(rows, {s}) && d !in a
    ensures Cascade(rows, a) !! Cascade(rows, {d})
  {
    var mine, theirs := Cascade(rows, a), Cascade(rows, {d});
    AddedHangs(rows, {d});
    AddedHangs(rows, a);
    assert s !in theirs && s !in mine by {
      assert s in theirs ==> s in theirs - {d};
      assert s in mine ==> s in mine - a;
    }
    var rest := mine - theirs;
    forall id | id in Below(rows, rest)
      ensures id in rest
    {
      assert id in Below(rows, mine);
      assert id in theirs - {d} ==> id in Below(rows, theirs);
    }
    forall id | id in a
      ensures id in rest
    {
      assert id in theirs - {d} ==> id in Below(rows, theirs);
    }
    CascadeIsLeast(rows, a, rest);
  }

  /** Records and all below them, each once. */
  ghost predicate RetiredWith(rows: Rows, tops: set<RecordId>, out: seq<Record>)
  {
    UniqueIds(out) && Present(rows, out) && Ids(out) == Cascade(rows, tops)
  }

  lemma RetiredOne(rows: Rows, d: Record, below: seq<Record>)
    requires d.id in rows && rows[d.id] == d && Retired(rows, d.id, below)
    ensures RetiredWith(rows, {d.id}, [d] + below)
  {
    IdsConcat([d], below);
    assert Ids([d]) == {d.id} by { assert [d][0] == d; }
    UniqueBoth([d], below);
  }

  lemma RetiredWithMore(rows: Rows, s: RecordId, tops: set<RecordId>, d: RecordId, out: seq<Record>, more: seq<Record>)
    requires Authored(rows, {s}) && tops <= Below(rows, {s}) && d in Below(rows, {s}) && d !in tops
    requires RetiredWith(rows, tops, out) && RetiredWith(rows, {d}, more)
    ensures RetiredWith(rows, tops + {d}, out + more)
  {
    SiblingsApart(rows, s, tops, d);
    CascadeBoth(rows, tops, {d});
    IdsConcat(out, more);
    UniqueBoth(out, more);
  }

  function StaleUpTo(w: World, s: Record, derived: seq<Record>, t: Spot, i: nat): set<RecordId>
    requires i <= |derived|
  {
    set k | 0 <= k < i && !Belongs(derived[k], t) :: derived[k].id
  }

  lemma StaleUpToMore(w: World, s: Record, derived: seq<Record>, t: Spot, i: nat)
    requires Lists(w.db.rows, s.id, derived) && i < |derived|
    ensures StaleUpTo(w, s, derived, t, i + 1) == StaleUpTo(w, s, derived, t, i) + if Belongs(derived[i], t) then {} else {derived[i].id}
    ensures derived[i].id !in StaleUpTo(w, s, derived, t, i)
    ensures StaleUpTo(w, s, derived, t, i) <= Below(w.db.rows, {s.id}) && derived[i].id in Below(w.db.rows, {s.id})
  {
    assert forall k :: 0 <= k < |derived| ==> derived[k].id in Ids(derived);
  }

  lemma StaleIsAll(w: World, s: Record, derived: seq<Record>, t: Spot)
    requires Lists(w.db.rows, s.id, derived) && Place(w, s) == Some(t)
    ensures StaleUpTo(w, s, derived, t, |derived|) == Stale(w, s)
  {
    forall id | id in Stale(w, s)
      ensures id in StaleUpTo(w, s, derived, t, |derived|)
    {
      assert id in Ids(derived);
      var k :| 0 <= k < |derived| && derived[k].id == id;
    }
    forall id | id in StaleUpTo(w, s, derived, t, |derived|)
      ensures id in Stale(w, s)
    {
      var k :| 0 <= k < |derived| && !Belongs(derived[k], t) && derived[k].id == id;
      assert id in Ids(derived);
    }
  }

  /** Queues a generated record and everything hanging off it. */
  method Retire(p: Planner, d: Record) returns (ghost out: seq<Record>)
    requires p.w.Valid() && d.id in p.w.db.rows && p.w.db.rows[d.id] == d
    modifies p`q
    ensures RetiredWith(p.w.db.rows, {d.id}, out) && p.q == RemoveEach(p.w.db, old(p.q), out)
  {
    RemoveEachMore(p.w.db, p.q, [], d);
    assert [] + [d] == [d];
    p.q := RemoveOne(p.w.db, p.q, d);
    ghost var below := p.RetireBelow(d.id);
    RemoveEachConcat(p.w.db, old(p.q), [d], below);
    RetiredOne(p.w.db.rows, d, below);
    out := [d] + below;
  }

  method RetireUnlessInPlace(p: Planner, d: Record, t: Spot) returns (ghost out: seq<Record>)
    requires p.w.Valid() && d.id in p.w.db.rows && p.w.db.rows[d.id] == d
    modifies p`q
    ensures if Belongs(d, t) then out == [] else RetiredWith(p.w.db.rows, {d.id}, out)
    ensures p.q == RemoveEach(p.w.db, old(p.q), out)
  {
    out := [];
    if !(d.zone == t.zone && d.typ == PTR && d.name == t.name) {
      out := Retire(p, d);
    }
  }

  lemma RetiredUnless(rows: Rows, s: RecordId, tops: set<RecordId>, d: RecordId, keeps: bool, out: seq<Record>, more: seq<Record>)
    requires Authored(rows, {s}) && tops <= Below(rows, {s}) && d in Below(rows, {s}) && d !in tops
    requires RetiredWith(rows, tops, out) && if keeps then more == [] else RetiredWith(rows, {d}, more)
    ensures RetiredWith(rows, tops + if keeps then {} else {d}, out + more)
  {
    if keeps {
      assert out + more == out && tops + {} == tops;
    } else {
      RetiredWithMore(rows, s, tops, d, out, more);
    }
  }

  method RetireStale(p: Planner, s: Record, derived: seq<Record>, t: Spot) returns (ghost out: seq<Record>)
    requires p.w.Valid() && Authored(p.w.db.rows, {s.id}) && Lists(p.w.db.rows, s.id, derived) && Place(p.w, s) == Some(t)
    modifies p`q
    ensures RetiredWith(p.w.db.rows, Stale(p.w, s), out) && p.q == RemoveEach(p.w.db, old(p.q), out)
  {
    out := [];
    NoneRetired(p.w.db.rows);
    assert StaleUpTo(p.w, s, derived, t, 0) == {};
    for i := 0 to |derived|
      invariant RetiredWith(p.w.db.rows, StaleUpTo(p.w, s, derived, t, i), out)
      invariant p.q == RemoveEach(p.w.db, old(p.q), out)
    {
      ghost var more := RetireUnlessInPlace(p, derived[i], t);
      StaleUpToMore(p.w, s, derived, t, i);
      RemoveEachConcat(p.w.db, old(p.q), out, more);
      RetiredUnless(p.w.db.rows, s.id, StaleUpTo(p.w, s, derived, t, i), derived[i].id, Belongs(derived[i], t), out, more);
      out := out + more;
    }
    StaleIsAll(p.w, s, derived, t);
  }

  lemma NoneRetired(rows: Rows)
    ensures RetiredWith(rows, {}, [])
  {
    CascadeIsLeast(rows, {}, {});
    assert Ids([]) == {};
  }

  /** Retires the entries a record generated that are no longer where they belong. */
  method Supersede(p: Planner, s: Record) returns (ghost out: seq<Record>)
    requires p.w.Valid() && Authored(p.w.db.rows, {s.id})
    modifies p`q
    ensures RetiredWith(p.w.db.rows, Stale(p.w, s), out) && p.q == RemoveEach(p.w.db, old(p.q), out)
  {
    out := [];
    NoneRetired(p.w.db.rows);
    if AddressOf(s).None? || p.w.zoneFor(AddressOf(s).value).None? { return; }
    var addr := AddressOf(s).value;
    var rev := p.w.zoneFor(addr).value;
    out := RetireStale(p, s, p.w.below(s.id), Spot(rev.id, p.w.ownerIn(rev.id, addr), None));
  }

  // ---------------------------------------------------------- how far a plan is

  ghost predicate Fills(q: Queue, t: Spot)
  {
    exists r :: Adds(q, r) && SitsAt(r, t)
  }

  /** An addition: the entry of one of the records so far, or what points at one
      added on the way. */
  ghost predicate Expected(w: World, policy: Policy, sources: seq<Record>, n: nat, q: Queue, r: Record)
    requires n <= |sources|
  {
    || (exists k :: 0 <= k < n && Earns(w, policy, sources, k, r))
    || (r.typ == CNAME && PointsAtEntry(q, r))
  }

  /** The entry of the record that was the first to find its spot open. */
  ghost predicate Earns(w: World, policy: Policy, sources: seq<Record>, k: nat, r: Record)
    requires k < |sources|
  {
    && r.managedBy == Some(sources[k].id) && r.data == NameData(sources[k].name) && InPlaceOf(w, sources[k], r)
    && SpotOf(w, policy, sources[k]).Some? && OpensFirst(w, policy, sources, k, SpotOf(w, policy, sources[k]).value)
  }

  ghost predicate PointsAtEntry(q: Queue, r: Record)
  {
    exists e :: Adds(q, e) && e.typ == PTR && r.managedBy == Some(e.id)
  }

  ghost predicate InPlaceOf(w: World, s: Record, r: Record)
  {
    Place(w, s).Some? && SitsAt(r, Place(w, s).value)
  }

  ghost predicate NoUpdates(q: Queue)
  {
    forall z {:trigger q.For(z)} :: q.For(z).updates == [] && q.For(z).soa.None?
  }

  ghost predicate RemovesRows(rows: Rows, q: Queue, gone: set<RecordId>)
  {
    forall d {:trigger Removes(q, d)} :: Removes(q, d) <==> d.id in gone && d.id in rows && rows[d.id] == d
  }

  /** Part way: these rows are on their way out, every spot one of the first n
      records found open has an entry coming, and there is nothing else. */
  ghost predicate Stage(w: World, policy: Policy, sources: seq<Record>, n: nat, gone: set<RecordId>, first: RecordId, q: Queue, mint: RecordId)
    requires n <= |sources|
  {
    && WellPlanned(w.db, q) && NoUpdates(q) && first <= mint
    && (forall id :: id in w.db.rows ==> id < first)
    && RemovesRows(w.db.rows, q, gone)
    && FillsOpened(w, policy, sources, n, q) && OneEach(q)
    && AddsExpected(w, policy, sources, n, first, q, mint)
  }

  /** No record has two entries coming. */
  ghost predicate OneEach(q: Queue)
  {
    forall r, e {:trigger Adds(q, r), Adds(q, e)} ::
      Adds(q, r) && Adds(q, e) && r.typ == PTR && e.typ == PTR && r.managedBy == e.managedBy ==> r == e
  }

  ghost predicate FillsOpened(w: World, policy: Policy, sources: seq<Record>, n: nat, q: Queue)
    requires n <= |sources|
  {
    && (forall t {:trigger Fills(q, t)} :: OfKind(policy, t) ==> (Fills(q, t) <==> Filled(w, policy, sources, n, t)))
    && ((exists r :: Adds(q, r)) ==> exists t :: OfKind(policy, t) && Fills(q, t))
  }

  ghost predicate AddsExpected(w: World, policy: Policy, sources: seq<Record>, n: nat, first: RecordId, q: Queue, mint: RecordId)
    requires n <= |sources|
  {
    forall r {:trigger Adds(q, r)} :: Adds(q, r) ==> first <= r.id < mint && Expected(w, policy, sources, n, q, r)
  }

  // --------------------------------------------------------- the first half

  lemma StillUnnamed(w: World, policy: Policy, sources: seq<Record>, n: nat, first: RecordId, q: Queue, mint: RecordId, out: seq<Record>)
    requires w.Valid() && Sources(w.db.rows, sources) && n < |sources|
    requires Stage(w, policy, sources, n, Overtaken(w, sources, n), first, q, mint)
    requires RetiredWith(w.db.rows, Stale(w, sources[n]), out)
    ensures Unnamed(q, out)
  {
    RetiresItsOwn(w, sources, n);
    forall r | r in out
      ensures r.id !in Ids(Leaving(q.For(r.zone)))
    {
      IdsOf(out, r.id);
      IdsOf(Leaving(q.For(r.zone)), r.id);
      if s :| s in Leaving(q.For(r.zone)) && s.id == r.id {
        LeavingIs(q.For(r.zone), s);
        assert Removes(q, s);
      }
    }
  }

  lemma SameAdds(q: Queue, next: Queue)
    requires OnlyRemoved(q, next)
    ensures forall r :: Adds(q, r) <==> Adds(next, r)
    ensures forall t :: Fills(q, t) <==> Fills(next, t)
  {
    forall r
      ensures Adds(q, r) <==> Adds(next, r)
    {
      if z :| z in q.byZone && r in q.byZone[z].inserts {
        assert next.For(z).inserts == q.For(z).inserts;
      }
      if z :| z in next.byZone && r in next.byZone[z].inserts {
        assert next.For(z).inserts == q.For(z).inserts;
      }
    }
  }

  lemma Superseded(w: World, policy: Policy, sources: seq<Record>, n: nat, first: RecordId, q: Queue, mint: RecordId, out: seq<Record>, mid: Queue)
    requires w.Valid() && Sources(w.db.rows, sources) && n < |sources|
    requires Stage(w, policy, sources, n, Overtaken(w, sources, n), first, q, mint)
    requires RetiredWith(w.db.rows, Stale(w, sources[n]), out) && mid == RemoveEach(w.db, q, out)
    ensures Stage(w, policy, sources, n, Overtaken(w, sources, n + 1), first, mid, mint)
  {
    StillUnnamed(w, policy, sources, n, first, q, mint, out);
    RemoveEachPlanned(w.db, q, out);
    SameAdds(q, mid);
    MoreRemoved(w.db.rows, q, mid, Overtaken(w, sources, n), Stale(w, sources[n]), out);
    StillExpected(w, policy, sources, n, first, q, mid, mint);
    assert FillsOpened(w, policy, sources, n, mid);
  }

  lemma MoreRemoved(rows: Rows, q: Queue, mid: Queue, gone: set<RecordId>, tops: set<RecordId>, out: seq<Record>)
    requires RowsOk(rows) && NoUpdates(q) && RemovesRows(rows, q, gone) && RetiredWith(rows, tops, out) && Lost(q, mid, out)
    ensures NoUpdates(mid) && RemovesRows(rows, mid, gone + Cascade(rows, tops))
  {
    forall d
      ensures Removes(mid, d) <==> d.id in gone + Cascade(rows, tops) && d.id in rows && rows[d.id] == d
    {
      IdsOf(out, d.id);
      if d.id in Ids(out) {
        var r :| r in out && r.id == d.id;
        var i :| 0 <= i < |out| && out[i] == r;
      }
    }
    forall z
      ensures mid.For(z).updates == [] && mid.For(z).soa.None?
    {
      assert q.For(z).updates == [];
    }
  }

  lemma StillExpected(w: World, policy: Policy, sources: seq<Record>, n: nat, first: RecordId, q: Queue, mid: Queue, mint: RecordId)
    requires n <= |sources| && AddsExpected(w, policy, sources, n, first, q, mint) && forall r :: Adds(q, r) <==> Adds(mid, r)
    ensures AddsExpected(w, policy, sources, n, first, mid, mint)
  {
    forall r | Adds(mid, r)
      ensures first <= r.id < mint && Expected(w, policy, sources, n, mid, r)
    {
      ExpectedStill(w, policy, sources, n, n, q, mid, r);
    }
  }

  // -------------------------------------------------------- the second half

  lemma RemovingIs(rows: Rows, q: Queue, gone: set<RecordId>, z: ZoneId, id: RecordId)
    requires WellQueued(rows, q) && RemovesRows(rows, q, gone) && RowsOk(rows) && id in rows && rows[id].zone == z
    ensures q.For(z).Removing(id) <==> id in gone
  {
    var c := q.For(z);
    if c.Removing(id) {
      var i :| 0 <= i < |c.deletes| && c.deletes[i].id == id;
      assert Removes(q, c.deletes[i]);
    }
    if id in gone {
      assert Removes(q, rows[id]);
      RemovesIs(q, rows[id]);
      DeleteIsOwn(rows, q, rows[id]);
      var i :| 0 <= i < |c.deletes| && c.deletes[i] == rows[id];
    }
  }

  lemma FillsIs(rows: Rows, q: Queue, t: Spot)
    requires WellQueued(rows, q)
    ensures Fills(q, t) <==> exists r :: r in q.For(t.zone).inserts && SitsAt(r, t)
  {
    if r :| r in q.For(t.zone).inserts && SitsAt(r, t) {
      Queued(rows, q, t.zone);
      assert Adds(q, r);
    }
    if r :| Adds(q, r) && SitsAt(r, t) {
      var y :| y in q.byZone && r in q.byZone[y].inserts;
      Queued(rows, q, y);
    }
  }

  /** What asking for a spot finds: anything there, or the name it has to answer. */
  predicate SpotHeld(rows: Rows, q: Queue, t: Spot)
  {
    var key := RRsetKey(t.name, CLASS_IN, PTR);
    match t.answer
    case None => SetHeld(rows, q, t.zone, key)
    case Some(name) => SetAnswers(rows, q, t.zone, key, name)
  }

  lemma HeldAtIs(rows: Rows, q: Queue, t: Spot)
    requires q.For(t.zone).updates == [] && forall r :: r in q.For(t.zone).inserts ==> r.zone == t.zone
    ensures SpotHeld(rows, q, t) <==>
            || (exists id :: id in rows && Staying(rows, q, t.zone, id) && SitsAt(rows[id], t))
            || (exists r :: r in q.For(t.zone).inserts && SitsAt(r, t))
  {
  }

  /** Something will answer at a spot: a row that stays, or an entry on its way. */
  lemma HeldIff(rows: Rows, q: Queue, gone: set<RecordId>, t: Spot)
    requires RowsOk(rows) && WellQueued(rows, q) && NoUpdates(q) && RemovesRows(rows, q, gone)
    ensures SpotHeld(rows, q, t) <==> !(Holders(rows, t) <= gone) || Fills(q, t)
  {
    FillsIs(rows, q, t);
    Queued(rows, q, t.zone);
    assert q.For(t.zone).updates == [];
    HeldAtIs(rows, q, t);
    if id :| id in rows && Staying(rows, q, t.zone, id) && SitsAt(rows[id], t) {
      RemovingIs(rows, q, gone, t.zone, id);
      assert id in Holders(rows, t);
    }
    if !(Holders(rows, t) <= gone) {
      var id :| id in Holders(rows, t) && id !in gone;
      RemovingIs(rows, q, gone, t.zone, id);
      assert Staying(rows, q, t.zone, id);
    }
  }

  /** The spot is held, and not by the record's own name. */
  predicate Conflicts(w: World, q: Queue, s: Record)
  {
    var spot := SpotOf(w, Reject, s);
    spot.Some? && SpotHeld(w.db.rows, q, spot.value) && !SpotHeld(w.db.rows, q, spot.value.(answer := Some(s.name)))
  }

  /** Under every policy an entry is added exactly where the spot is open, and only a
      policy that rejects refuses anything. */
  lemma GenerateIs(w: World, policy: Policy, q: Queue, s: Record, mint: RecordId)
    ensures Generate(w, policy, q, s, mint).Err? <==> policy == Reject && Conflicts(w, q, s)
    ensures Generate(w, policy, q, s, mint).Ok? ==>
              var next := Generate(w, policy, q, s, mint).value;
              match SpotOf(w, policy, s)
              case None => next == q
              case Some(t) =>
                if SpotHeld(w.db.rows, q, t) then next == q
                else next == Install(w, q, w.zoneFor(AddressOf(s).value).value, AddressOf(s).value, s, mint)
  {
  }

  lemma InstallsKinds(w: World, q: Queue, rev: Zone, addr: Address, source: Record, mint: RecordId)
    ensures var entry := Entry(rev, w.ownerIn(rev.id, addr), source, mint);
            && entry in Installs(w, q, rev, addr, source, mint)
            && forall r :: r in Installs(w, q, rev, addr, source, mint) ==>
                 r == entry || (r.typ == CNAME && r.managedBy == Some(mint) && r.id == mint + 1)
  {
  }

  /** An entry joined at a spot, with nothing but what points at it. */
  ghost predicate Joined(q: Queue, next: Queue, more: set<Record>, entry: Record, t: Spot, s: Record, mint: RecordId)
  {
    && Extra(q, next, more) && entry in more && SitsAt(entry, t) && entry.managedBy == Some(s.id) && entry.id == mint
    && entry.data == NameData(s.name)
    && forall r :: r in more ==> r == entry || (r.typ == CNAME && r.managedBy == Some(mint) && r.id == mint + 1)
  }

  lemma JoinedFills(q: Queue, next: Queue, more: set<Record>, entry: Record, t: Spot, s: Record, mint: RecordId, u: Spot)
    requires Joined(q, next, more, entry, t, s, mint) && (t.answer.Some? <==> u.answer.Some?)
    ensures Fills(next, u) <==> Fills(q, u) || u == t
  {
    assert AddedIff(q, next, more, entry);
    if r :| Adds(next, r) && SitsAt(r, u) {
      assert AddedIff(q, next, more, r);
    }
    if r :| Adds(q, r) && SitsAt(r, u) {
      assert AddedIff(q, next, more, r);
      assert Adds(next, r);
    }
    if u == t {
      assert Adds(next, entry);
    }
  }

  lemma ExpectedStill(w: World, policy: Policy, sources: seq<Record>, n: nat, m: nat, q: Queue, next: Queue, r: Record)
    requires n <= m <= |sources| && Expected(w, policy, sources, n, q, r) && forall e :: Adds(q, e) ==> Adds(next, e)
    ensures Expected(w, policy, sources, m, next, r)
  {
    if k :| 0 <= k < n && Earns(w, policy, sources, k, r) {
    } else {
      var e :| Adds(q, e) && e.typ == PTR && r.managedBy == Some(e.id);
      assert PointsAtEntry(next, r);
    }
  }

  lemma OnlyAddedNoUpdates(q: Queue, next: Queue)
    requires OnlyAdded(q, next) && NoUpdates(q)
    ensures NoUpdates(next)
  {
    forall z
      ensures next.For(z).updates == [] && next.For(z).soa.None?
    {
      assert OnlyAddedIn(q.For(z), next.For(z));
      assert q.For(z).updates == [];
    }
  }

  lemma FilledMore(w: World, policy: Policy, sources: seq<Record>, n: nat, t: Spot)
    requires n < |sources|
    ensures Filled(w, policy, sources, n + 1, t) <==> Filled(w, policy, sources, n, t) || Opens(w, policy, sources, n, t)
  {
  }

  lemma JoinedAdds(w: World, policy: Policy, sources: seq<Record>, n: nat, first: RecordId, q: Queue, mint: RecordId,
                   next: Queue, more: set<Record>, entry: Record, t: Spot)
    requires n < |sources| && AddsExpected(w, policy, sources, n, first, q, mint) && first <= mint
    requires Joined(q, next, more, entry, t, sources[n], mint) && OpensFirst(w, policy, sources, n, t)
    ensures AddsExpected(w, policy, sources, n + 1, first, next, mint + 2)
  {
    forall e | Adds(q, e)
      ensures Adds(next, e)
    {
      AddsStay(q, next, e);
    }
    forall r | Adds(next, r)
      ensures first <= r.id < mint + 2 && Expected(w, policy, sources, n + 1, next, r)
    {
      assert AddedIff(q, next, more, r);
      if Adds(q, r) {
        ExpectedStill(w, policy, sources, n, n + 1, q, next, r);
      } else if r == entry {
        assert Earns(w, policy, sources, n, r);
      } else {
        assert AddedIff(q, next, more, entry);
        assert PointsAtEntry(next, r);
      }
    }
  }

  lemma JoinedOnce(w: World, policy: Policy, sources: seq<Record>, n: nat, first: RecordId, q: Queue, mint: RecordId,
                   next: Queue, more: set<Record>, entry: Record, t: Spot)
    requires n < |sources| && UniqueIds(sources) && AddsExpected(w, policy, sources, n, first, q, mint) && OneEach(q)
    requires Joined(q, next, more, entry, t, sources[n], mint)
    ensures OneEach(next)
  {
    forall r | Adds(next, r)
      ensures Adds(q, r) || r == entry || r.typ == CNAME
      ensures Adds(q, r) && r.typ == PTR ==> r.managedBy != entry.managedBy
    {
      assert AddedIff(q, next, more, r);
      if Adds(q, r) && r.typ == PTR {
        assert Expected(w, policy, sources, n, q, r);
        var k :| 0 <= k < n && Earns(w, policy, sources, k, r);
        assert sources[k].id != sources[n].id;
      }
    }
  }

  lemma JoinedOpened(w: World, policy: Policy, sources: seq<Record>, n: nat, q: Queue, mint: RecordId,
                     next: Queue, more: set<Record>, entry: Record, t: Spot)
    requires n < |sources| && FillsOpened(w, policy, sources, n, q)
    requires Joined(q, next, more, entry, t, sources[n], mint) && Opens(w, policy, sources, n, t)
    ensures FillsOpened(w, policy, sources, n + 1, next)
  {
    forall u | OfKind(policy, u)
      ensures Fills(next, u) <==> Filled(w, policy, sources, n + 1, u)
    {
      JoinedFills(q, next, more, entry, t, sources[n], mint, u);
      FilledMore(w, policy, sources, n, u);
    }
    assert Fills(next, t);
  }

  lemma JoinedStage(w: World, policy: Policy, sources: seq<Record>, n: nat, first: RecordId, q: Queue, mint: RecordId,
                    next: Queue, more: set<Record>, entry: Record, t: Spot)
    requires n < |sources| && UniqueIds(sources) && Stage(w, policy, sources, n, Overtaken(w, sources, n + 1), first, q, mint)
    requires WellPlanned(w.db, next) && Joined(q, next, more, entry, t, sources[n], mint) && OpensFirst(w, policy, sources, n, t)
    ensures Stage(w, policy, sources, n + 1, Overtaken(w, sources, n + 1), first, next, mint + 2)
  {
    OnlyAddedNoUpdates(q, next);
    SameRemoves(q, next);
    JoinedOpened(w, policy, sources, n, q, mint, next, more, entry, t);
    JoinedAdds(w, policy, sources, n, first, q, mint, next, more, entry, t);
    JoinedOnce(w, policy, sources, n, first, q, mint, next, more, entry, t);
  }

  lemma SkippedStage(w: World, policy: Policy, sources: seq<Record>, n: nat, first: RecordId, q: Queue, mint: RecordId)
    requires n < |sources| && Stage(w, policy, sources, n, Overtaken(w, sources, n + 1), first, q, mint)
    requires forall t :: Opens(w, policy, sources, n, t) ==> Filled(w, policy, sources, n, t)
    ensures Stage(w, policy, sources, n + 1, Overtaken(w, sources, n + 1), first, q, mint + 2)
  {
    forall u | OfKind(policy, u)
      ensures Fills(q, u) <==> Filled(w, policy, sources, n + 1, u)
    {
      FilledMore(w, policy, sources, n, u);
    }
    forall r | Adds(q, r)
      ensures first <= r.id < mint + 2 && Expected(w, policy, sources, n + 1, q, r)
    {
      ExpectedStill(w, policy, sources, n, n + 1, q, q, r);
    }
  }

  lemma Generated(w: World, policy: Policy, sources: seq<Record>, n: nat, first: RecordId, q: Queue, mint: RecordId)
    requires w.Valid() && n < |sources| && UniqueIds(sources) && Stage(w, policy, sources, n, Overtaken(w, sources, n + 1), first, q, mint)
    requires Generate(w, policy, q, sources[n], mint).Ok?
    ensures Stage(w, policy, sources, n + 1, Overtaken(w, sources, n + 1), first, Generate(w, policy, q, sources[n], mint).value, mint + 2)
  {
    var s := sources[n];
    GenerateIs(w, policy, q, s, mint);
    if SpotOf(w, policy, s).None? {
      SkippedStage(w, policy, sources, n, first, q, mint);
    } else {
      var t := SpotOf(w, policy, s).value;
      HeldIff(w.db.rows, q, Overtaken(w, sources, n + 1), t);
      if SpotHeld(w.db.rows, q, t) {
        SkippedStage(w, policy, sources, n, first, q, mint);
      } else {
        EntryInstalled(w, policy, sources, n, first, q, mint, t);
      }
    }
  }

  lemma EntryInstalled(w: World, policy: Policy, sources: seq<Record>, n: nat, first: RecordId, q: Queue, mint: RecordId, t: Spot)
    requires w.Valid() && n < |sources| && UniqueIds(sources) && Stage(w, policy, sources, n, Overtaken(w, sources, n + 1), first, q, mint)
    requires OpensFirst(w, policy, sources, n, t)
    ensures var addr := AddressOf(sources[n]).value;
            Stage(w, policy, sources, n + 1, Overtaken(w, sources, n + 1), first, Install(w, q, w.zoneFor(addr).value, addr, sources[n], mint), mint + 2)
  {
    var addr := AddressOf(sources[n]).value;
    var rev := w.zoneFor(addr).value;
    InstallPlanned(w, q, rev, addr, sources[n], mint);
    InstallExtra(w, q, rev, addr, sources[n], mint);
    InstallsKinds(w, q, rev, addr, sources[n], mint);
    JoinedStage(w, policy, sources, n, first, q, mint, Install(w, q, rev, addr, sources[n], mint),
                Installs(w, q, rev, addr, sources[n], mint), Entry(rev, w.ownerIn(rev.id, addr), sources[n], mint), t);
  }

  // ------------------------------------------------------- what a pass is refused for

  /** When this record's turn comes, its spot is held, by a row that stays or by an
      entry on its way, and neither answers with its name. */
  predicate Contested(w: World, sources: seq<Record>, k: nat)
    requires k < |sources|
  {
    var spot := SpotOf(w, Reject, sources[k]);
    spot.Some? &&
    var t := spot.value;
    && !OpensFirst(w, Reject, sources, k, t)
    && Holders(w.db.rows, t.(answer := Some(sources[k].name))) <= Overtaken(w, sources, k + 1)
    && !Shared(w, sources, k, t)
  }

  /** The entry on its way to this spot has the record's own name. */
  predicate Shared(w: World, sources: seq<Record>, k: nat, t: Spot)
    requires k < |sources|
  {
    exists j :: 0 <= j < k && OpensFirst(w, Reject, sources, j, t) && sources[j].name == sources[k].name
  }

  /** The entry at a spot is that of the record that was first there. */
  lemma EarnedFirst(w: World, sources: seq<Record>, n: nat, first: RecordId, q: Queue, mint: RecordId, t: Spot, r: Record) returns (k: nat)
    requires n <= |sources| && AddsExpected(w, Reject, sources, n, first, q, mint) && Adds(q, r) && SitsAt(r, t.(answer := None))
    ensures k < n && r.data == NameData(sources[k].name) && OpensFirst(w, Reject, sources, k, t.(answer := None))
  {
    assert Expected(w, Reject, sources, n, q, r);
    k :| 0 <= k < n && Earns(w, Reject, sources, k, r);
    assert SpotOf(w, Reject, sources[k]) == Some(t.(answer := None));
  }

  lemma SharedIff(w: World, sources: seq<Record>, n: nat, first: RecordId, q: Queue, mint: RecordId, t: Spot)
    requires n < |sources| && AddsExpected(w, Reject, sources, n, first, q, mint) && FillsOpened(w, Reject, sources, n, q)
    requires t.answer.None?
    ensures Fills(q, t.(answer := Some(sources[n].name))) <==> Shared(w, sources, n, t)
  {
    var own := t.(answer := Some(sources[n].name));
    if r :| Adds(q, r) && SitsAt(r, own) {
      var k := EarnedFirst(w, sources, n, first, q, mint, t, r);
    }
    if j :| 0 <= j < n && OpensFirst(w, Reject, sources, j, t) && sources[j].name == sources[n].name {
      assert Fills(q, t);
      var r :| Adds(q, r) && SitsAt(r, t);
      var k := EarnedFirst(w, sources, n, first, q, mint, t, r);
      OneIsFirst(w, sources, j, k, t);
      assert SitsAt(r, own);
    }
  }

  lemma OneIsFirst(w: World, sources: seq<Record>, j: nat, k: nat, t: Spot)
    requires j < |sources| && k < |sources| && OpensFirst(w, Reject, sources, j, t) && OpensFirst(w, Reject, sources, k, t)
    ensures j == k
  {
  }

  /** A policy that rejects refuses a record exactly then. */
  lemma ConflictIff(w: World, sources: seq<Record>, n: nat, first: RecordId, q: Queue, mint: RecordId)
    requires w.Valid() && n < |sources| && Stage(w, Reject, sources, n, Overtaken(w, sources, n + 1), first, q, mint)
    ensures Generate(w, Reject, q, sources[n], mint).Err? <==> Contested(w, sources, n)
  {
    var s := sources[n];
    GenerateIs(w, Reject, q, s, mint);
    if SpotOf(w, Reject, s).Some? {
      var t := SpotOf(w, Reject, s).value;
      HeldIff(w.db.rows, q, Overtaken(w, sources, n + 1), t);
      HeldIff(w.db.rows, q, Overtaken(w, sources, n + 1), t.(answer := Some(s.name)));
      SharedIff(w, sources, n, first, q, mint, t);
    }
  }

  // ------------------------------------------------------------- a whole pass

  /** Everything a pass over these records comes to. */
  ghost predicate WholePass(w: World, policy: Policy, sources: seq<Record>, first: RecordId, q: Queue, mint: RecordId)
  {
    Stage(w, policy, sources, |sources|, Overtaken(w, sources, |sources|), first, q, mint)
  }

  function Listed(pages: seq<seq<Record>>): seq<Record>
  {
    if pages == [] then [] else Listed(pages[..|pages| - 1]) + pages[|pages| - 1]
  }

  /** Of the records listed, those whose own zone has the automation on. */
  function Automated(w: World, listed: seq<Record>): seq<Record>
  {
    if listed == [] then []
    else
      var last := listed[|listed| - 1];
      Automated(w, listed[..|listed| - 1]) + if w.Automates(last.zone) then [last] else []
  }

  lemma {:induction false} AutomatedConcat(w: World, a: seq<Record>, b: seq<Record>)
    ensures Automated(w, a + b) == Automated(w, a) + Automated(w, b)
    decreases |b|
  {
    if b == [] {
      assert a + b == a;
    } else {
      AutomatedConcat(w, a, b[..|b| - 1]);
      assert (a + b)[..|a + b| - 1] == a + b[..|b| - 1];
    }
  }

  lemma {:induction false} AutomatedIs(w: World, listed: seq<Record>, s: Record)
    ensures s in Automated(w, listed) <==> s in listed && w.Automates(s.zone)
  {
    if listed != [] {
      var front, last := listed[..|listed| - 1], listed[|listed| - 1];
      AutomatedIs(w, front, s);
      assert listed == front + [last];
    }
  }

  /** Leaving some of the listed out leaves sources. */
  lemma {:induction false} AutomatedSources(w: World, listed: seq<Record>)
    requires Sources(w.db.rows, listed)
    ensures Sources(w.db.rows, Automated(w, listed))
  {
    var sources := Automated(w, listed);
    if listed != [] {
      var front, last := listed[..|listed| - 1], listed[|listed| - 1];
      assert forall s :: s in front ==> s in listed;
      AutomatedSources(w, front);
      forall s | s in Automated(w, front)
        ensures s.id != last.id
      {
        AutomatedIs(w, front, s);
      }
    }
    forall s | s in sources
      ensures s in listed
    {
      AutomatedIs(w, listed, s);
    }
  }

  /** The records of the first pages, and of a page up to one of them. */
  ghost function UpTo(pages: seq<seq<Record>>, i: nat, k: nat): seq<Record>
    requires i < |pages| && k <= |pages[i]|
  {
    Listed(pages[..i]) + pages[i][..k]
  }

  lemma {:induction false} ListedFirst(pages: seq<seq<Record>>, i: nat) returns (rest: seq<Record>)
    requires i <= |pages|
    ensures Listed(pages) == Listed(pages[..i]) + rest
    decreases |pages|
  {
    if i == |pages| {
      assert pages[..i] == pages;
      rest := [];
    } else {
      var n := |pages| - 1;
      var more := ListedFirst(pages[..n], i);
      assert pages[..n][..i] == pages[..i];
      rest := more + pages[n];
    }
  }

  lemma RestListed(pages: seq<seq<Record>>, i: nat, k: nat) returns (rest: seq<Record>)
    requires i < |pages| && k <= |pages[i]|
    ensures Listed(pages) == UpTo(pages, i, k) + rest
  {
    var more := ListedFirst(pages, i + 1);
    assert pages[..i + 1][..i] == pages[..i];
    rest := pages[i][k..] + more;
    assert Listed(pages[..i + 1]) == Listed(pages[..i]) + (pages[i][..k] + pages[i][k..]);
  }

  /** One record further: the next source, or one that is passed over. */
  lemma NextListed(w: World, pages: seq<seq<Record>>, i: nat, k: nat)
    requires i < |pages| && k < |pages[i]|
    ensures var done, r := Automated(w, UpTo(pages, i, k)), pages[i][k];
            && Automated(w, UpTo(pages, i, k + 1)) == done + (if w.Automates(r.zone) then [r] else [])
            && Automated(w, UpTo(pages, i, k + 1)) <= Automated(w, Listed(pages))
  {
    var r := pages[i][k];
    var rest := RestListed(pages, i, k + 1);
    AutomatedConcat(w, UpTo(pages, i, k + 1), rest);
    assert UpTo(pages, i, k + 1) == UpTo(pages, i, k) + [r];
    AutomatedConcat(w, UpTo(pages, i, k), [r]);
    OneAutomated(w, r);
  }

  lemma OneAutomated(w: World, r: Record)
    ensures Automated(w, [r]) == if w.Automates(r.zone) then [r] else []
  {
    assert [r][..0] == [];
  }

  /** How far a pass is, by the records it has gone through. */
  ghost predicate Going(w: World, policy: Policy, pages: seq<seq<Record>>, listed: seq<Record>, first: RecordId, q: Queue, mint: RecordId)
  {
    var sources, n := Automated(w, Listed(pages)), |Automated(w, listed)|;
    && AllInStep(q) && Automated(w, listed) <= sources && Stage(w, policy, sources, n, Overtaken(w, sources, n), first, q, mint)
    && Uncontested(w, policy, sources, n)
  }

  ghost predicate Uncontested(w: World, policy: Policy, sources: seq<Record>, n: nat)
    requires n <= |sources|
  {
    policy == Reject ==> forall k :: 0 <= k < n ==> !Contested(w, sources, k)
  }

  /** A page at a time, passing over records in zones whose automation is off. Only a
      policy that rejects refuses, and only where a record's spot is contested. */
  method Reconcile(p: Planner, policy: Policy, pages: seq<seq<Record>>) returns (err: Option<Refusal>)
    requires p.w.Valid() && Sources(p.w.db.rows, Listed(pages)) && p.q == NO_QUEUE
    requires forall id :: id in p.w.db.rows ==> id < p.mint
    modifies p
    ensures err.None? ==> WholePass(p.w, policy, Automated(p.w, Listed(pages)), old(p.mint), p.q, p.mint) && AllInStep(p.q)
    ensures err.None? <==> Uncontested(p.w, policy, Automated(p.w, Listed(pages)), |Automated(p.w, Listed(pages))|)
    ensures err.Some? ==> err == Some(Conflict)
  {
    ghost var first, sources := p.mint, Automated(p.w, Listed(pages));
    StartsEmpty(p.w, policy, sources, first);
    AutomatedSources(p.w, Listed(pages));
    for i := 0 to |pages|
      invariant Going(p.w, policy, pages, Listed(pages[..i]), first, p.q, p.mint)
    {
      err := ReconcilePage(p, policy, pages, i, first);
      if err.Some? { return; }
      assert pages[..i + 1][..i] == pages[..i];
      assert UpTo(pages, i, |pages[i]|) == Listed(pages[..i + 1]);
    }
    assert pages[..|pages|] == pages;
    err := None;
  }

  method ReconcilePage(p: Planner, policy: Policy, pages: seq<seq<Record>>, i: nat, ghost first: RecordId) returns (err: Option<Refusal>)
    requires p.w.Valid() && Sources(p.w.db.rows, Automated(p.w, Listed(pages))) && i < |pages|
    requires Going(p.w, policy, pages, Listed(pages[..i]), first, p.q, p.mint)
    modifies p
    ensures err.None? ==> Going(p.w, policy, pages, UpTo(pages, i, |pages[i]|), first, p.q, p.mint)
    ensures err.Some? ==> Refused(p.w, policy, pages, err)
  {
    assert UpTo(pages, i, 0) == Listed(pages[..i]);
    err := None;
    for k := 0 to |pages[i]|
      invariant err.None? && Going(p.w, policy, pages, UpTo(pages, i, k), first, p.q, p.mint)
    {
      err := ReconcileListed(p, policy, pages, i, k, first);
      if err.Some? { return; }
    }
  }

  ghost predicate Refused(w: World, policy: Policy, pages: seq<seq<Record>>, err: Option<Refusal>)
  {
    var sources := Automated(w, Listed(pages));
    err == Some(Conflict) && !Uncontested(w, policy, sources, |sources|)
  }

  method ReconcileListed(p: Planner, policy: Policy, pages: seq<seq<Record>>, i: nat, k: nat, ghost first: RecordId) returns (err: Option<Refusal>)
    requires p.w.Valid() && Sources(p.w.db.rows, Automated(p.w, Listed(pages))) && i < |pages| && k < |pages[i]|
    requires Going(p.w, policy, pages, UpTo(pages, i, k), first, p.q, p.mint)
    modifies p
    ensures err.None? ==> Going(p.w, policy, pages, UpTo(pages, i, k + 1), first, p.q, p.mint)
    ensures err.Some? ==> Refused(p.w, policy, pages, err)
  {
    ghost var done := Automated(p.w, UpTo(pages, i, k));
    NextListed(p.w, pages, i, k);
    if !p.w.Automates(pages[i][k].zone) {
      assert done + [] == done;
      return None;
    }
    ghost var sources, n := Automated(p.w, Listed(pages)), |done|;
    assert sources[n] == Automated(p.w, UpTo(pages, i, k + 1))[n];
    err := ReconcileOne(p, policy, pages[i][k], sources, n, first);
    if err.None? { OneListedFurther(p.w, policy, pages, done + [pages[i][k]], UpTo(pages, i, k + 1), n, first, p.q, p.mint); }
  }

  lemma OneListedFurther(w: World, policy: Policy, pages: seq<seq<Record>>, next: seq<Record>, listed: seq<Record>, n: nat,
                   first: RecordId, q: Queue, mint: RecordId)
    requires var sources := Automated(w, Listed(pages));
             && n < |sources| && next <= sources && |next| == n + 1 && Automated(w, listed) == next
             && Uncontested(w, policy, sources, n) && !(policy == Reject && Contested(w, sources, n))
             && AllInStep(q) && Stage(w, policy, sources, n + 1, Overtaken(w, sources, n + 1), first, q, mint)
    ensures Going(w, policy, pages, listed, first, q, mint)
  {
  }

  method ReconcileOne(p: Planner, policy: Policy, s: Record, ghost sources: seq<Record>, ghost n: nat, ghost first: RecordId)
    returns (err: Option<Refusal>)
    requires p.w.Valid() && Sources(p.w.db.rows, sources) && n < |sources| && s == sources[n]
    requires Stage(p.w, policy, sources, n, Overtaken(p.w, sources, n), first, p.q, p.mint) && AllInStep(p.q)
    modifies p
    ensures err.None? ==> Stage(p.w, policy, sources, n + 1, Overtaken(p.w, sources, n + 1), first, p.q, p.mint) && AllInStep(p.q)
    ensures err == if policy == Reject && Contested(p.w, sources, n) then Some(Conflict) else None
  {
    ghost var q, mint := p.q, p.mint;
    assert s in sources;
    ghost var out := Supersede(p, s);
    Superseded(p.w, policy, sources, n, first, q, mint, out, p.q);
    RemoveEachInStep(p.w.db, q, out);
    Turn(p.w, policy, sources, n, first, p.q, mint);
    err := p.Generate(policy, s);
  }

  lemma Turn(w: World, policy: Policy, sources: seq<Record>, n: nat, first: RecordId, q: Queue, mint: RecordId)
    requires w.Valid() && n < |sources| && UniqueIds(sources) && Stage(w, policy, sources, n, Overtaken(w, sources, n + 1), first, q, mint)
    requires AllInStep(q)
    ensures var next := Generate(w, policy, q, sources[n], mint);
            && (next.Err? <==> policy == Reject && Contested(w, sources, n))
            && (next.Ok? ==> Stage(w, policy, sources, n + 1, Overtaken(w, sources, n + 1), first, next.value, mint + 2) && AllInStep(next.value))
  {
    GenerateIs(w, policy, q, sources[n], mint);
    if policy == Reject { ConflictIff(w, sources, n, first, q, mint); }
    if Generate(w, policy, q, sources[n], mint).Ok? {
      Generated(w, policy, sources, n, first, q, mint);
      GenerateInStep(w, policy, q, sources[n], mint);
    }
  }

  lemma StartsEmpty(w: World, policy: Policy, sources: seq<Record>, first: RecordId)
    requires forall id :: id in w.db.rows ==> id < first
    ensures Stage(w, policy, sources, 0, Overtaken(w, sources, 0), first, NO_QUEUE, first)
  {
  }
}
