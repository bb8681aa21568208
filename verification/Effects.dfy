/** Withdrawing a record and authoring an address are taken, and what rows they leave. */
module Effects {
  import opened Dns
  import opened Changes
  import opened Ordering
  import opened Store
  import opened Write
  import opened Carry
  import opened History
  import opened Upkeep
  import opened Queues
  import opened Reverse
  import opened Generation
  import opened Expansion
  import opened Upshot
  import opened Command
  import opened Lifetime
  import opened Acceptance
  import opened Asking

  // ------------------------------------------------------------------ withdrawing

  /** An authored row of a zone whose automation is on, of a type that generates. */
  ghost predicate Withdrawable(w: World, z: Zone, a: Record)
  {
    && w.Valid() && w.Holds(z) && w.Automates(z.id) && CanGenerate(a.typ)
    && a.id in w.db.rows && w.db.rows[a.id] == a && a.zone == z.id && a.managedBy.None?
  }

  ghost function Withdrawing(w: World, z: Zone, a: Record, out: seq<Record>): Queue
  {
    RemoveEach(w.db, Put(NO_QUEUE, z, NO_CHANGES.Remove(a)), out)
  }

  lemma OneRemoval(a: Record)
    ensures var c := NO_CHANGES.Remove(a);
            c.deletes == [a] && c.updates == [] && c.inserts == [] && Leaving(c) == [a] && Ids([a]) == {a.id}
    ensures CanGenerate(a.typ) ==> Roots(NO_CHANGES.Remove(a)) == {a.id}
    ensures SourcesOf(NO_CHANGES.Remove(a)) == []
  {
    assert Leaving(NO_CHANGES.Remove(a)) == [a];
    assert Ids([a]) == {a.id} by { assert [a][0] == a; }
    assert a in [a];
  }

  lemma WithdrawAsked(w: World, policy: Policy, z: Zone, a: Record, out: seq<Record>, first: RecordId)
    requires Withdrawable(w, z, a) && RetiredAll(w.db.rows, {a.id}, out) && forall id :: id in w.db.rows ==> id < first
    ensures Requested(w, policy, z, Withdraw(a.id), NO_CHANGES.Remove(a), Withdrawing(w, z, a, out))
    ensures Commanded(w.db, Put(NO_QUEUE, z, NO_CHANGES.Remove(a)), z.id)
  {
    var c := NO_CHANGES.Remove(a);
    var q, next := Put(NO_QUEUE, z, c), Withdrawing(w, z, a, out);
    OneRemoval(a);
    OneZoneGathers(z, c);
    SetsAreListed(w.db.rows, z.id);
    OneAsks(w.db, z, Withdraw(a.id), SetsOf(w.db.rows, z.id), c);
    assert Spread(w, policy, next, [], first) == Ok(next);
    ExpansionExact(w, policy, q, z.id, next, out, first, next);
  }

  lemma NoUpdatesJoin(q: Queue, next: Queue)
    requires Keeps(q, next) && forall y :: q.For(y).updates == []
    ensures AllUpdates(next) == []
  {
    forall y
      ensures next.For(y).updates == []
    {
      assert KeepsIn(q.For(y), next.For(y));
    }
    if AllUpdates(next) != [] { InUpdates(next, |next.order|, AllUpdates(next)[0]); }
  }

  lemma RemovalsOnly(w: World, policy: Policy, z: Zone, a: Record, next: Queue)
    requires Requested(w, policy, z, Withdraw(a.id), NO_CHANGES.Remove(a), next) && Withdrawable(w, z, a)
    ensures next.Proper() && AllUpdates(next) == [] && AllInserts(next) == []
    ensures Ids(AllDeletes(next)) == Cascade(w.db.rows, {a.id})
  {
    var c := NO_CHANGES.Remove(a);
    var q := Put(NO_QUEUE, z, c);
    OneRemoval(a);
    PutProper(NO_QUEUE, z, c);
    NoUpdatesJoin(q, next);
    if AllInserts(next) != [] {
      AddsIs(next, AllInserts(next)[0]);
    }
  }

  /** The record goes and everything below it, and nothing else changes. */
  lemma WithdrawTaken(w: World, policy: Policy, z: Zone, a: Record, out: seq<Record>, first: RecordId, mint: CommitId, n: nat) returns (now: Db)
    requires Withdrawable(w, z, a) && RetiredAll(w.db.rows, {a.id}, out) && forall id :: id in w.db.rows ==> id < first
    requires Began(w.db, mint, n)
    ensures Withdrawing(w, z, a, out).Proper() && Taken(w.db, RequestOf(w, policy, z, Withdraw(a.id), mint, Withdrawing(w, z, a, out)), now)
    ensures Lawful(now) && now.rows == w.db.rows - Cascade(w.db.rows, {a.id}) && now.zones.Keys == w.db.zones.Keys
    ensures now.commits == w.db.commits + EditBatch(Editing(z.id, mint), Withdrawing(w, z, a, out)).commits
  {
    var c, next := NO_CHANGES.Remove(a), Withdrawing(w, z, a, out);
    WithdrawAsked(w, policy, z, a, out, first);
    OneRemoval(a);
    PutProper(NO_QUEUE, z, c);
    RemovalsOnly(w, policy, z, a, next);
    RemovalsWritten(w, policy, z, a, next);
    now := AskedTaken(w, policy, z, Withdraw(a.id), c, next, mint, n);
  }

  lemma RemovalsDeleted(w: World, policy: Policy, z: Zone, a: Record, next: Queue, q: Queue)
    requires w.Valid() && w.Automates(z.id) && CanGenerate(a.typ) && q.For(z.id).deletes == [a] && Commanded(w.db, q, z.id)
    requires Expanded(w, policy, q, z.id, next)
    ensures DeleteAll(w.db, Ordered(AllDeletes(next), true)) == Ok(w.db.(rows := w.db.rows - Ids(AllDeletes(next))))
    ensures Known(w.db.rows, [a], true)
  {
    ExpandedDeletesSucceed(w, policy, q, z.id, next);
  }

  lemma RemovalsWritten(w: World, policy: Policy, z: Zone, a: Record, next: Queue)
    requires Requested(w, policy, z, Withdraw(a.id), NO_CHANGES.Remove(a), next) && Withdrawable(w, z, a)
    requires Commanded(w.db, Put(NO_QUEUE, z, NO_CHANGES.Remove(a)), z.id)
    ensures Known(w.db.rows, [a], true)
    ensures WriteQueue(w.db, next) == Ok(w.db.(rows := w.db.rows - Cascade(w.db.rows, {a.id})))
  {
    OneRemoval(a);
    PutProper(NO_QUEUE, z, NO_CHANGES.Remove(a));
    RemovalsOnly(w, policy, z, a, next);
    RemovalsDeleted(w, policy, z, a, next, Put(NO_QUEUE, z, NO_CHANGES.Remove(a)));
    OneOrdered(a, false);
  }

  // ------------------------------------------------------------- additions, written

  ghost predicate OnlyAdds(db: Db, q: Queue)
  {
    && q.Proper() && Grounded(db.rows, q) && AllDeletes(q) == [] && AllUpdates(q) == []
    && UniqueIds(AllInserts(q)) && (forall r :: r in AllInserts(q) ==> AddableOne(db, r))
    && forall r, s :: r in AllInserts(q) && s in AllInserts(q) && r.id != s.id && r.zone == s.zone ==> KeyOf(r) != KeyOf(s)
  }

  lemma OrderedIsAddable(db: Db, q: Queue)
    requires OnlyAdds(db, q)
    ensures Addable(db, Ordered(AllInserts(q), false))
  {
    var all, rs := AllInserts(q), Ordered(AllInserts(q), false);
    OrderedKeeps(all, false);
    assert Ids(all) !! db.rows.Keys by {
      forall id | id in Ids(all)
        ensures id !in db.rows
      {
        IdsOf(all, id);
      }
    }
    forall i | 0 <= i < |rs| && rs[i].managedBy.Some?
      ensures rs[i].managedBy.value in db.rows.Keys + Ids(rs[..i])
    {
      EveryInsertFindsItsSource(db.rows, q, i);
      if j :| 0 <= j < i && rs[j].id == rs[i].managedBy.value {
        assert rs[..i][j] == rs[j];
      }
    }
    forall i | 0 <= i < |rs|
      ensures AddableOne(db, rs[i])
    {
      assert rs[i] in rs;
    }
    forall i, j | 0 <= i < j < |rs| && rs[i].zone == rs[j].zone
      ensures KeyOf(rs[i]) != KeyOf(rs[j])
    {
      assert rs[i] in rs && rs[j] in rs && rs[i].id != rs[j].id;
    }
  }

  /** Additions that may be made are made. */
  lemma AdditionsWritten(db: Db, q: Queue)
    requires Integrity(db) && OnlyAdds(db, q)
    ensures WriteQueue(db, q).Ok? && Extended(db.rows, WriteQueue(db, q).value.rows, AllInserts(q))
  {
    var rs := Ordered(AllInserts(q), false);
    OrderedIsAddable(db, q);
    InsertsAccepted(db, rs);
    NoneOrdered();
    assert WriteQueue(db, q) == InsertAll(db, rs);
    InsertsExtend(db, rs);
    OrderedIsPermutation(AllInserts(q), false);
    ExtendedReordered(db.rows, InsertAll(db, rs).value.rows, rs, AllInserts(q));
  }

  lemma NoneOrdered()
    ensures Ordered([], true) == []
  {
    OrderedIsPermutation([], true);
    assert |Ordered([], true)| == |multiset(Ordered([], true))|;
  }

  // --------------------------------------------------------------------- authoring

  ghost function IfThere(q: Queue, z: ZoneId, n: nat, r: Record): multiset<Record>
    requires n <= |q.order|
  {
    if z in q.order[..n] then multiset{r} else multiset{}
  }

  lemma OneInsertsMore(q: Queue, n: nat)
    requires 0 < n <= |q.order|
    ensures multiset(Inserts(q, n)) == multiset(Inserts(q, n - 1)) + multiset(q.For(q.order[n - 1]).inserts)
  {
  }

  lemma ThereOrNow(q: Queue, z: ZoneId, n: nat, r: Record)
    requires q.Proper() && 0 < n <= |q.order|
    ensures IfThere(q, z, n, r) == IfThere(q, z, n - 1, r) + if q.order[n - 1] == z then multiset{r} else multiset{}
  {
    assert q.order[..n] == q.order[..n - 1] + [q.order[n - 1]] && q.order[n - 1] !in q.order[..n - 1];
  }

  lemma Regrouped(a: multiset<Record>, b: multiset<Record>, c: multiset<Record>, d: multiset<Record>)
    ensures (a + b) + (c + d) == (a + c) + (b + d)
  {
  }

  lemma {:induction false} InsertsWithOne(q: Queue, next: Queue, z: ZoneId, r: Record, n: nat)
    requires q.Proper() && n <= |q.order| <= |next.order| && q.order == next.order[..|q.order|]
    requires next.For(z).inserts == q.For(z).inserts + [r] && forall y :: y != z ==> next.For(y).inserts == q.For(y).inserts
    ensures multiset(Inserts(next, n)) == multiset(Inserts(q, n)) + IfThere(q, z, n, r)
  {
    if n > 0 {
      InsertsWithOne(q, next, z, r, n - 1);
      OneInsertsMore(q, n);
      OneInsertsMore(next, n);
      ThereOrNow(q, z, n, r);
      var y := q.order[n - 1];
      var now := if y == z then multiset{r} else multiset{};
      assert next.order[n - 1] == y;
      assert multiset(next.For(y).inserts) == multiset(q.For(y).inserts) + now;
      Regrouped(multiset(Inserts(q, n - 1)), IfThere(q, z, n - 1, r), multiset(q.For(y).inserts), now);
    }
  }

  /** One more addition, wherever it is queued. */
  lemma EnqueuedInserts(q: Queue, z: Zone, r: Record)
    requires q.Proper()
    ensures multiset(AllInserts(Enqueue(q, z, r))) == multiset(AllInserts(q)) + multiset{r}
  {
    var next := Enqueue(q, z, r);
    PutProper(q, z, q.For(z.id).Insert(r));
    InsertsWithOne(q, next, z.id, r, |q.order|);
    assert q.order[..|q.order|] == q.order;
    if z.id !in q.byZone {
      assert Inserts(next, |next.order|) == Inserts(next, |q.order|) + [r];
    }
  }

  ghost function Authoring(z: Zone, a: Record): Queue
  {
    Put(NO_QUEUE, z, NO_CHANGES.Insert(a))
  }

  /** The entry an address brings, unless its spot is held, and the delegation to it,
      unless its name is. */
  ghost function Brings(w: World, policy: Policy, z: Zone, a: Record, first: RecordId): seq<Record>
  {
    if !Lands(w, policy, z, a) then []
    else
      var addr := AddressOf(a).value;
      var rev := w.zoneFor(addr).value;
      var e := Entry(rev, w.ownerIn(rev.id, addr), a, first);
      [e] + Posts(w, Enqueue(Authoring(z, a), rev, e), rev, addr, first)
  }

  ghost predicate Lands(w: World, policy: Policy, z: Zone, a: Record)
  {
    Sited(w, a) &&
    var addr := AddressOf(a).value;
    var rev := w.zoneFor(addr).value;
    if policy == Multi then !SetAnswers(w.db.rows, Authoring(z, a), rev.id, Target(w, rev, addr), a.name)
    else !SetHeld(w.db.rows, Authoring(z, a), rev.id, Target(w, rev, addr))
  }

  /** A policy that rejects has nothing against it: what answers there has its name. */
  ghost predicate Admits(w: World, policy: Policy, z: Zone, a: Record)
  {
    policy == Reject && Sited(w, a) && !Lands(w, policy, z, a) ==>
      var addr := AddressOf(a).value;
      var rev := w.zoneFor(addr).value;
      SetAnswers(w.db.rows, Authoring(z, a), rev.id, Target(w, rev, addr), a.name)
  }

  ghost function Posts(w: World, mid: Queue, rev: Zone, addr: Address, first: RecordId): seq<Record>
  {
    match Delegator(w, rev, addr)
    case None => []
    case Some(up) =>
      if NameHeld(w.db.rows, mid, up.id, w.plain(addr)) then []
      else [Signpost(up, w.plain(addr), w.ownerIn(rev.id, addr), first, first + 1)]
  }

  /** A record to author: new, authored, in the zone, with a key nothing has. */
  ghost predicate Authorable(w: World, policy: Policy, z: Zone, a: Record, first: RecordId)
  {
    && w.Valid() && w.Holds(z) && w.Automates(z.id) && AddableOne(w.db, a) && Reverses(a)
    && a.zone == z.id && a.managedKind.None? && Contains(z, a.name) && a.id < first
    && (forall id :: id in w.db.rows ==> id < first) && Admits(w, policy, z, a)
    && forall y :: y in w.db.zones ==> w.db.zones[y].defaultTtl <= MAX_TTL
  }

  lemma OneAddition(z: Zone, a: Record)
    ensures var c := NO_CHANGES.Insert(a);
            c.deletes == [] && c.updates == [] && c.inserts == [a] && Leaving(c) == [] && Roots(c) == {} && SourcesOf(c) == [a]
  {
  }

  lemma EntryQueued(w: World, z: Zone, a: Record, first: RecordId, rev: Zone, e: Record) returns (mid: Queue)
    ensures mid == Enqueue(Authoring(z, a), rev, e) && mid.Proper() && multiset(AllInserts(mid)) == multiset([a, e])
  {
    var q := Authoring(z, a);
    OneZoneGathers(z, NO_CHANGES.Insert(a));
    mid := Enqueue(q, rev, e);
    EnqueuedInserts(q, rev, e);
    PutProper(q, rev, q.For(rev.id).Insert(e));
    assert NO_CHANGES.Insert(a).inserts == [a];
  }

  lemma SignpostQueued(mid: Queue, rs: seq<Record>, up: Zone, x: Record)
    requires mid.Proper() && multiset(AllInserts(mid)) == multiset(rs)
    ensures Enqueue(mid, up, x).Proper() && multiset(AllInserts(Enqueue(mid, up, x))) == multiset(rs + [x])
  {
    EnqueuedInserts(mid, up, x);
    PutProper(mid, up, mid.For(up.id).Insert(x));
  }

  lemma AnswersHeld(rows: Rows, q: Queue, z: ZoneId, key: RRsetKey, name: Name)
    ensures SetAnswers(rows, q, z, key, name) ==> SetHeld(rows, q, z, key)
  {
  }

  lemma DelegateQueued(w: World, mid: Queue, rs: seq<Record>, rev: Zone, addr: Address, first: RecordId) returns (next: Queue)
    requires mid.Proper() && multiset(AllInserts(mid)) == multiset(rs)
    ensures next == Delegate(w, mid, rev, addr, w.ownerIn(rev.id, addr), first, first + 1) && next.Proper()
    ensures multiset(AllInserts(next)) == multiset(rs + Posts(w, mid, rev, addr, first))
  {
    next := Delegate(w, mid, rev, addr, w.ownerIn(rev.id, addr), first, first + 1);
    if Posts(w, mid, rev, addr, first) == [] {
      assert rs + [] == rs;
    } else {
      SignpostQueued(mid, rs, Delegator(w, rev, addr).value, Posts(w, mid, rev, addr, first)[0]);
    }
  }

  lemma LandsGenerates(w: World, policy: Policy, z: Zone, a: Record, first: RecordId, rev: Zone, addr: Address, e: Record)
    requires Reverses(a) && Lands(w, policy, z, a) && addr == AddressOf(a).value && w.zoneFor(addr) == Some(rev)
    requires e == Entry(rev, w.ownerIn(rev.id, addr), a, first)
    ensures Generate(w, policy, Authoring(z, a), a, first) ==
            Ok(Delegate(w, Enqueue(Authoring(z, a), rev, e), rev, addr, w.ownerIn(rev.id, addr), first, first + 1))
    ensures [a] + Brings(w, policy, z, a, first) == [a, e] + Posts(w, Enqueue(Authoring(z, a), rev, e), rev, addr, first)
  {
    AnswersHeld(w.db.rows, Authoring(z, a), rev.id, Target(w, rev, addr), a.name);
  }

  lemma LandedQueued(w: World, z: Zone, a: Record, first: RecordId, rev: Zone, addr: Address, e: Record) returns (next: Queue)
    ensures next == Delegate(w, Enqueue(Authoring(z, a), rev, e), rev, addr, w.ownerIn(rev.id, addr), first, first + 1) && next.Proper()
    ensures multiset(AllInserts(next)) == multiset([a, e] + Posts(w, Enqueue(Authoring(z, a), rev, e), rev, addr, first))
  {
    var mid := EntryQueued(w, z, a, first, rev, e);
    next := DelegateQueued(w, mid, [a, e], rev, addr, first);
  }

  lemma AuthorGenerates(w: World, policy: Policy, z: Zone, a: Record, first: RecordId) returns (next: Queue)
    requires Reverses(a) && Admits(w, policy, z, a)
    ensures Generate(w, policy, Authoring(z, a), a, first) == Ok(next) && next.Proper()
    ensures multiset(AllInserts(next)) == multiset([a] + Brings(w, policy, z, a, first))
  {
    if Lands(w, policy, z, a) {
      var addr := AddressOf(a).value;
      var rev := w.zoneFor(addr).value;
      var e := Entry(rev, w.ownerIn(rev.id, addr), a, first);
      next := LandedQueued(w, z, a, first, rev, addr, e);
      LandsGenerates(w, policy, z, a, first, rev, addr, e);
    } else {
      next := BringsNothing(w, policy, z, a, first);
    }
  }

  lemma BringsNothing(w: World, policy: Policy, z: Zone, a: Record, first: RecordId) returns (next: Queue)
    requires Reverses(a) && !Lands(w, policy, z, a) && Admits(w, policy, z, a)
    ensures Generate(w, policy, Authoring(z, a), a, first) == Ok(next) && next.Proper()
    ensures AllInserts(next) == [a] + Brings(w, policy, z, a, first)
  {
    next := Authoring(z, a);
    OneZoneGathers(z, NO_CHANGES.Insert(a));
    assert NO_CHANGES.Insert(a).inserts == [a];
    if Sited(w, a) {
      var addr := AddressOf(a).value;
      var rev := w.zoneFor(addr).value;
      AnswersHeld(w.db.rows, next, rev.id, Target(w, rev, addr), a.name);
    }
  }

  lemma AuthorAsked(w: World, policy: Policy, z: Zone, a: Record, first: RecordId, next: Queue)
    requires Authorable(w, policy, z, a, first) && Generate(w, policy, Authoring(z, a), a, first) == Ok(next)
    ensures Requested(w, policy, z, Author(a), NO_CHANGES.Insert(a), next)
  {
    OneAddition(z, a);
    AuthorCommanded(w, policy, z, a, first);
    AuthorExpanded(w, policy, z, a, first, next);
  }

  lemma AuthorCommanded(w: World, policy: Policy, z: Zone, a: Record, first: RecordId)
    requires Authorable(w, policy, z, a, first)
    ensures ValidOp(z.id, Author(a)) && Resolved(w.db, z, NO_CHANGES, Author(a), SetsOf(w.db.rows, z.id)) == Ok(NO_CHANGES.Insert(a))
    ensures Commanded(w.db, Authoring(z, a), z.id) && Generation.Unused(w.db.rows, Authoring(z, a), first)
  {
    var c := NO_CHANGES.Insert(a);
    OneAddition(z, a);
    OneZoneGathers(z, c);
    SetsAreListed(w.db.rows, z.id);
    OneAsks(w.db, z, Author(a), SetsOf(w.db.rows, z.id), c);
  }

  lemma AuthorExpanded(w: World, policy: Policy, z: Zone, a: Record, first: RecordId, next: Queue)
    requires Authorable(w, policy, z, a, first) && Generate(w, policy, Authoring(z, a), a, first) == Ok(next)
    requires Commanded(w.db, Authoring(z, a), z.id) && Generation.Unused(w.db.rows, Authoring(z, a), first)
    ensures NoClash(w, z.id, NO_CHANGES.Insert(a)) && Expanded(w, policy, Authoring(z, a), z.id, next)
  {
    var q := Authoring(z, a);
    OneAddition(z, a);
    OneZoneGathers(z, NO_CHANGES.Insert(a));
    NothingRetired(w.db.rows);
    OneSpread(w, policy, q, a, first);
    ExpansionExact(w, policy, q, z.id, q, [], first, next);
  }

  lemma OneSpread(w: World, policy: Policy, q: Queue, a: Record, first: RecordId)
    ensures Spread(w, policy, q, [a], first) == Generate(w, policy, q, a, first)
  {
    assert [a][..0] == [];
    assert Spread(w, policy, q, [], first) == Ok(q);
  }

  lemma AuthorOnlyAdds(w: World, policy: Policy, z: Zone, a: Record, next: Queue)
    requires Requested(w, policy, z, Author(a), NO_CHANGES.Insert(a), next)
    ensures AllDeletes(next) == [] && AllUpdates(next) == []
  {
    OneAddition(z, a);
    PutProper(NO_QUEUE, z, NO_CHANGES.Insert(a));
    NoUpdatesJoin(Authoring(z, a), next);
    CascadeIsLeast(w.db.rows, {}, {});
    assert Ids([]) == {};
    SomeIds(AllDeletes(next));
  }

  lemma SomeIds(rs: seq<Record>)
    ensures rs != [] ==> Ids(rs) != {}
  {
    if rs != [] { assert rs[0].id in Ids(rs); }
  }

  lemma EntryIsAddable(w: World, policy: Policy, z: Zone, a: Record, first: RecordId, rev: Zone, addr: Address, e: Record)
    requires Authorable(w, policy, z, a, first) && Lands(w, policy, z, a) && addr == AddressOf(a).value && w.zoneFor(addr) == Some(rev)
    requires e == Entry(rev, w.ownerIn(rev.id, addr), a, first)
    ensures AddableOne(w.db, e)
  {
    var q := Authoring(z, a);
    OneZoneGathers(z, NO_CHANGES.Insert(a));
    forall id | id in w.db.rows && w.db.rows[id].zone == rev.id
      ensures KeyOf(w.db.rows[id]) != KeyOf(e)
    {
      assert Staying(w.db.rows, q, rev.id, id);
    }
    assert w.Holds(rev);
  }

  lemma PostIsAddable(w: World, policy: Policy, z: Zone, a: Record, first: RecordId, rev: Zone, addr: Address, e: Record, x: Record)
    requires Authorable(w, policy, z, a, first) && x in Posts(w, Enqueue(Authoring(z, a), rev, e), rev, addr, first)
    ensures AddableOne(w.db, x) && x.typ == CNAME && x.id == first + 1
  {
    var q := Authoring(z, a);
    var mid := Enqueue(q, rev, e);
    OneZoneGathers(z, NO_CHANGES.Insert(a));
    PutProper(q, rev, q.For(rev.id).Insert(e));
    assert w.Holds(Delegator(w, rev, addr).value);
    forall id | id in w.db.rows && w.db.rows[id].zone == x.zone
      ensures KeyOf(w.db.rows[id]) != KeyOf(x)
    {
      assert mid.For(x.zone).deletes == [];
      assert Staying(w.db.rows, mid, x.zone, id);
    }
  }

  ghost predicate Distinct(db: Db, a: Record, more: seq<Record>)
  {
    && UniqueIds([a] + more)
    && (forall r :: r in more ==> AddableOne(db, r) && (r.typ == PTR || r.typ == CNAME))
    && forall r, s :: r in more && s in more && r.id != s.id ==> r.typ != s.typ
  }

  lemma BroughtAreAddable(w: World, policy: Policy, z: Zone, a: Record, first: RecordId)
    requires Authorable(w, policy, z, a, first)
    ensures Distinct(w.db, a, Brings(w, policy, z, a, first))
  {
    if Lands(w, policy, z, a) {
      var addr := AddressOf(a).value;
      var rev := w.zoneFor(addr).value;
      var e := Entry(rev, w.ownerIn(rev.id, addr), a, first);
      var tail := Posts(w, Enqueue(Authoring(z, a), rev, e), rev, addr, first);
      EntryIsAddable(w, policy, z, a, first, rev, addr, e);
      if tail != [] { PostIsAddable(w, policy, z, a, first, rev, addr, e, tail[0]); }
      OneOrTwo(w.db, a, e, tail);
    }
  }

  lemma OneOrTwo(db: Db, a: Record, e: Record, tail: seq<Record>)
    requires AddableOne(db, e) && e.typ == PTR && a.id < e.id && |tail| <= 1
    requires tail != [] ==> AddableOne(db, tail[0]) && tail[0].typ == CNAME && e.id < tail[0].id
    ensures Distinct(db, a, [e] + tail)
  {
  }

  lemma AuthorAdds(w: World, policy: Policy, z: Zone, a: Record, first: RecordId, next: Queue, more: seq<Record>)
    requires Authorable(w, policy, z, a, first) && Requested(w, policy, z, Author(a), NO_CHANGES.Insert(a), next) && next.Proper()
    requires AllDeletes(next) == [] && AllUpdates(next) == [] && multiset(AllInserts(next)) == multiset([a] + more) && Distinct(w.db, a, more)
    ensures OnlyAdds(w.db, next)
  {
    UniqueOnceEach([a] + more, AllInserts(next));
    forall r | r in AllInserts(next)
      ensures r == a || r in more
    {
      assert r in multiset(AllInserts(next));
      assert r in [a] + more;
    }
    forall r, s | r in AllInserts(next) && s in AllInserts(next) && r.id != s.id && r.zone == s.zone
      ensures KeyOf(r) != KeyOf(s)
    {
      assert r.typ != s.typ;
    }
  }

  /** An address record is taken with whatever reverse entry it brings. */
  lemma AuthorTaken(w: World, policy: Policy, z: Zone, a: Record, first: RecordId, mint: CommitId, n: nat) returns (next: Queue, now: Db)
    requires Authorable(w, policy, z, a, first) && Began(w.db, mint, n)
    ensures next.Proper() && Taken(w.db, RequestOf(w, policy, z, Author(a), mint, next), now)
    ensures Lawful(now) && Extended(w.db.rows, now.rows, [a] + Brings(w, policy, z, a, first))
    ensures MovedOn(w.db, next, now) && Room(now, mint + |next.order|, n + 1)
  {
    next := AuthorGenerates(w, policy, z, a, first);
    AuthorAsked(w, policy, z, a, first, next);
    AuthorOnlyAdds(w, policy, z, a, next);
    BroughtAreAddable(w, policy, z, a, first);
    AuthorAdds(w, policy, z, a, first, next, Brings(w, policy, z, a, first));
    AdditionsWritten(w.db, next);
    now := AskedTaken(w, policy, z, Author(a), NO_CHANGES.Insert(a), next, mint, n);
    ExtendedReordered(w.db.rows, now.rows, AllInserts(next), [a] + Brings(w, policy, z, a, first));
  }

  /** So where a run has come to, one more comes to that. */
  lemma AuthorOccurs(w: World, policy: Policy, z: Zone, a: Record, first: RecordId, more: seq<Record>, mint: CommitId, n: nat)
    returns (next: Queue, now: Db)
    requires Occurs(w.db) && Authorable(w, policy, z, a, first) && more == Brings(w, policy, z, a, first)
    requires Began(w.db, mint, n) && n + 1 < SERIAL_SPACE - 1
    ensures Occurs(now) && Began(now, mint + |next.order|, n + 1) && MovedOn(w.db, next, now)
    ensures Extended(w.db.rows, now.rows, [a] + more)
  {
    next, now := AuthorTaken(w, policy, z, a, first, mint, n);
    TakenOccurs(w.db, RequestOf(w, policy, z, Author(a), mint, next), now);
  }

  /** A record that may be authored, and what it brings. */
  ghost predicate Entering(w: World, policy: Policy, z: Zone, a: Record, first: RecordId, more: seq<Record>)
  {
    Authorable(w, policy, z, a, first) && Brings(w, policy, z, a, first) == more
  }

  lemma EnteringOccurs(w: World, policy: Policy, z: Zone, a: Record, first: RecordId, more: seq<Record>, id: CommitId, n: nat)
    returns (next: Queue, now: Db, mint: CommitId)
    requires Occurs(w.db) && Began(w.db, id, n) && n < 10 && Entering(w, policy, z, a, first, more)
    ensures Occurs(now) && Began(now, mint, n + 1) && MovedOn(w.db, next, now) && Extended(w.db.rows, now.rows, [a] + more)
  {
    next, now := AuthorOccurs(w, policy, z, a, first, more, id, n);
    mint := id + |next.order|;
  }
}
