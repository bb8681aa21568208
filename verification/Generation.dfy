/** Generating the reverse entry an address implies, and the delegation that makes
    a classless one reachable (section 4 of RFC 2317). */
module Generation {
  import opened Dns
  import opened Changes
  import opened Store
  import opened Write
  import opened Carry
  import opened Upkeep
  import opened Queues
  import opened Reverse

  /** What to do about an address that already answers. */
  datatype Policy = FirstWins | Multi | Reject

  // ------------------------------------------- a zone as a queue leaves it

  /** A row of the zone that is not on its way out. */
  predicate Staying(rows: Rows, q: Queue, z: ZoneId, id: RecordId)
  {
    id in rows && rows[id].zone == z && !q.For(z).Removing(id)
  }

  /** Something answers in the RRset as the changes will leave it: what is stored,
      less what is on its way out, plus what is on its way in. */
  predicate SetHeld(rows: Rows, q: Queue, z: ZoneId, key: RRsetKey)
  {
    || (exists id :: id in rows && Staying(rows, q, z, id) && SetKey(rows[id]) == key)
    || (exists r :: r in q.For(z).inserts && SetKey(r) == key)
    || (exists u :: u in q.For(z).updates && SetKey(u.after) == key)
  }

  /** And answers with this name. */
  predicate SetAnswers(rows: Rows, q: Queue, z: ZoneId, key: RRsetKey, name: Name)
  {
    || (exists id :: id in rows && Staying(rows, q, z, id) && SetKey(rows[id]) == key && rows[id].data == NameData(name))
    || (exists r :: r in q.For(z).inserts && SetKey(r) == key && r.data == NameData(name))
    || (exists u :: u in q.For(z).updates && SetKey(u.after) == key && u.after.data == NameData(name))
  }

  /** Something is at the owner name as the changes will leave it. */
  predicate NameHeld(rows: Rows, q: Queue, z: ZoneId, name: Name)
  {
    || (exists id :: id in rows && Staying(rows, q, z, id) && rows[id].name == name)
    || (exists r :: r in q.For(z).inserts && r.name == name)
    || (exists u :: u in q.For(z).updates && u.after.name == name)
  }

  // ---------------------------------------------------------- the entries

  function Entry(rev: Zone, owner: Name, source: Record, id: RecordId): Record
  {
    Record(id, rev.id, owner, CLASS_IN, PTR, rev.defaultTtl, NameData(source.name),
           Some(source.id), Some(ManagedPtr), "", false)
  }

  function Signpost(parent: Zone, at: Name, target: Name, entry: RecordId, id: RecordId): Record
  {
    Record(id, parent.id, at, CLASS_IN, CNAME, parent.defaultTtl, NameData(target),
           Some(entry), Some(ManagedCname), "", false)
  }

  function Enqueue(q: Queue, z: Zone, r: Record): Queue
  {
    Put(q, z, q.For(z.id).Insert(r))
  }

  /** The zone that has to point at a classless child, if the store holds one. */
  function Delegator(w: World, child: Zone, addr: Address): Option<Zone>
  {
    if IsSubDomainOf(w.plain(addr), child.name) || child.name == [] then None
    else w.named(child.name[1..])
  }

  /** Adds the delegation where one is due and nothing answers there yet. */
  function Delegate(w: World, q: Queue, child: Zone, addr: Address, target: Name, entry: RecordId, id: RecordId): Queue
  {
    match Delegator(w, child, addr)
    case None => q
    case Some(up) =>
      if NameHeld(w.db.rows, q, up.id, w.plain(addr)) then q
      else Enqueue(q, up, Signpost(up, w.plain(addr), target, entry, id))
  }

  /** A record that has a reverse entry at all. */
  predicate Reverses(r: Record)
  {
    AddressOf(r).Some? && r.managedBy.None? && !r.disabled
  }

  function Target(w: World, rev: Zone, addr: Address): RRsetKey
  {
    RRsetKey(w.ownerIn(rev.id, addr), CLASS_IN, PTR)
  }

  /** Queues what an address record implies. It asks for up to two identifiers. */
  function Generate(w: World, policy: Policy, q: Queue, source: Record, mint: RecordId): Result<Queue>
  {
    if !Reverses(source) then Ok(q)
    else
      var addr := AddressOf(source).value;
      match w.zoneFor(addr)
      case None => Ok(q)
      case Some(rev) =>
        var key := Target(w, rev, addr);
        if SetAnswers(w.db.rows, q, rev.id, key, source.name) then Ok(q)
        else if SetHeld(w.db.rows, q, rev.id, key) && policy != Multi then
          if policy == Reject then Err(Conflict) else Ok(q)
        else Ok(Install(w, q, rev, addr, source, mint))
  }

  function Install(w: World, q: Queue, rev: Zone, addr: Address, source: Record, mint: RecordId): Queue
  {
    var owner := w.ownerIn(rev.id, addr);
    Delegate(w, Enqueue(q, rev, Entry(rev, owner, source, mint)), rev, addr, owner, mint, mint + 1)
  }

  lemma EnqueueInStep(q: Queue, z: Zone, r: Record)
    requires AllInStep(q)
    ensures AllInStep(Enqueue(q, z, r))
  {
    InsertInStep(q.For(z.id), r);
    PutInStep(q, z, q.For(z.id).Insert(r));
  }

  lemma GenerateInStep(w: World, policy: Policy, q: Queue, source: Record, mint: RecordId)
    requires AllInStep(q) && Generate(w, policy, q, source, mint).Ok?
    ensures AllInStep(Generate(w, policy, q, source, mint).value)
  {
    if Reverses(source) && w.zoneFor(AddressOf(source).value).Some? {
      var addr := AddressOf(source).value;
      var rev := w.zoneFor(addr).value;
      var owner := w.ownerIn(rev.id, addr);
      var entry := Entry(rev, owner, source, mint);
      var mid := Enqueue(q, rev, entry);
      EnqueueInStep(q, rev, entry);
      if Delegator(w, rev, addr).Some? {
        var up := Delegator(w, rev, addr).value;
        EnqueueInStep(mid, up, Signpost(up, w.plain(addr), owner, mint, mint + 1));
      }
    }
  }

  // ------------------------------------------------------ additions only

  ghost predicate Adds(q: Queue, r: Record)
  {
    exists z :: z in q.byZone && r in q.byZone[z].inserts
  }

  lemma AddsIs(q: Queue, r: Record)
    requires q.Proper()
    ensures r in AllInserts(q) <==> Adds(q, r)
  {
    InInserts(q, |q.order|, r);
    if z :| z in q.byZone && r in q.byZone[z].inserts {
      assert z in q.order;
      var k :| 0 <= k < |q.order| && q.order[k] == z;
      assert r in q.For(q.order[k]).inserts;
    }
  }

  /** Nothing but additions joined the queue. */
  ghost predicate OnlyAdded(q: Queue, next: Queue)
  {
    forall z {:trigger OnlyAddedIn(q.For(z), next.For(z))} :: OnlyAddedIn(q.For(z), next.For(z))
  }

  ghost predicate OnlyAddedIn(c: Changes, next: Changes)
  {
    next.deletes == c.deletes && next.updates == c.updates && next.claims == c.claims && next.soa == c.soa &&
    c.inserts <= next.inserts
  }

  /** These additions joined the queue, and nothing else. */
  ghost predicate Extra(q: Queue, next: Queue, more: set<Record>)
  {
    OnlyAdded(q, next) && forall s {:trigger AddedIff(q, next, more, s)} :: AddedIff(q, next, more, s)
  }

  ghost predicate AddedIff(q: Queue, next: Queue, more: set<Record>, s: Record)
  {
    Adds(next, s) <==> Adds(q, s) || s in more
  }

  lemma ExtraTwice(a: Queue, b: Queue, c: Queue, m: set<Record>, n: set<Record>)
    requires Extra(a, b, m) && Extra(b, c, n)
    ensures Extra(a, c, m + n)
  {
    forall z
      ensures OnlyAddedIn(a.For(z), c.For(z))
    {
      assert OnlyAddedIn(a.For(z), b.For(z)) && OnlyAddedIn(b.For(z), c.For(z));
    }
    forall s
      ensures AddedIff(a, c, m + n, s)
    {
      assert AddedIff(a, b, m, s) && AddedIff(b, c, n, s);
    }
  }

  lemma AddPlanned(db: Db, q: Queue, z: Zone, r: Record)
    requires WellPlanned(db, q) && z.id in db.zones && z == db.zones[z.id] && r.zone == z.id
    ensures WellPlanned(db, Enqueue(q, z, r))
  {
    var c := q.For(z.id);
    Queued(db.rows, q, z.id);
    assert Leaving(c.Insert(r)) == Leaving(c);
    assert z.id in q.byZone ==> AsRead(db, q, z.id);
    PutWellPlanned(db, q, z, c.Insert(r));
  }

  lemma AddExtra(q: Queue, z: Zone, r: Record)
    requires q.Proper()
    ensures Enqueue(q, z, r).Proper() && Extra(q, Enqueue(q, z, r), {r})
  {
    var c := q.For(z.id);
    PutProper(q, z, c.Insert(r));
    forall s
      ensures AddedIff(q, Enqueue(q, z, r), {r}, s)
    {
      AddsPut(q, z, c, r, s);
    }
    assert OnlyAddedIn(c, c.Insert(r));
    assert OnlyAdded(q, Enqueue(q, z, r));
  }

  lemma AddsPut(q: Queue, z: Zone, c: Changes, r: Record, s: Record)
    requires q.Proper() && c == q.For(z.id)
    ensures Adds(Put(q, z, c.Insert(r)), s) <==> Adds(q, s) || s == r
  {
    var next := Put(q, z, c.Insert(r));
    PutProper(q, z, c.Insert(r));
    assert next.byZone[z.id].inserts == c.inserts + [r];
    if y :| y in q.byZone && s in q.byZone[y].inserts {
      assert y in next.byZone && s in next.byZone[y].inserts by {
        if y != z.id { assert next.For(y) == q.For(y); }
      }
    }
    if y :| y in next.byZone && s in next.byZone[y].inserts {
      if y != z.id {
        assert next.For(y) == q.For(y);
        assert y in q.byZone;
      } else if s != r {
        assert s in c.inserts;
        assert z.id in q.byZone;
      }
    }
    if s == r {
      assert s in next.byZone[z.id].inserts;
    }
  }

  /** The delegation a new entry brings, if any. */
  ghost function SignpostFor(w: World, q: Queue, child: Zone, addr: Address, target: Name, entry: RecordId, id: RecordId): set<Record>
  {
    match Delegator(w, child, addr)
    case None => {}
    case Some(up) =>
      if NameHeld(w.db.rows, q, up.id, w.plain(addr)) then {} else {Signpost(up, w.plain(addr), target, entry, id)}
  }

  lemma SameExtra(q: Queue)
    ensures Extra(q, q, {})
  {
    forall s
      ensures AddedIff(q, q, {}, s)
    {
    }
  }

  lemma DelegatePlanned(w: World, q: Queue, child: Zone, addr: Address, target: Name, entry: RecordId, id: RecordId)
    requires w.Placed() && WellPlanned(w.db, q)
    ensures WellPlanned(w.db, Delegate(w, q, child, addr, target, entry, id))
  {
    if Delegator(w, child, addr).Some? {
      var up := Delegator(w, child, addr).value;
      AddPlanned(w.db, q, up, Signpost(up, w.plain(addr), target, entry, id));
    }
  }

  lemma DelegateExtra(w: World, q: Queue, child: Zone, addr: Address, target: Name, entry: RecordId, id: RecordId)
    requires q.Proper()
    ensures Delegate(w, q, child, addr, target, entry, id).Proper()
    ensures Extra(q, Delegate(w, q, child, addr, target, entry, id), SignpostFor(w, q, child, addr, target, entry, id))
  {
    SameExtra(q);
    if Delegator(w, child, addr).Some? {
      var up := Delegator(w, child, addr).value;
      AddExtra(q, up, Signpost(up, w.plain(addr), target, entry, id));
    }
  }

  /** What installing an entry adds: the entry, and what points at it. */
  ghost predicate Family(more: set<Record>, source: Record, mint: RecordId)
  {
    forall r :: r in more ==>
      || (r.id == mint && r.managedBy == Some(source.id) && Tier(r) == 1)
      || (r.id == mint + 1 && r.managedBy == Some(mint) && Tier(r) == 2)
  }

  ghost function Installs(w: World, q: Queue, rev: Zone, addr: Address, source: Record, mint: RecordId): set<Record>
  {
    var owner := w.ownerIn(rev.id, addr);
    var entry := Entry(rev, owner, source, mint);
    {entry} + SignpostFor(w, Enqueue(q, rev, entry), rev, addr, owner, mint, mint + 1)
  }

  lemma InstallsFamily(w: World, q: Queue, rev: Zone, addr: Address, source: Record, mint: RecordId)
    ensures Family(Installs(w, q, rev, addr, source, mint), source, mint)
    ensures Entry(rev, w.ownerIn(rev.id, addr), source, mint) in Installs(w, q, rev, addr, source, mint)
  {
  }

  lemma InstallPlanned(w: World, q: Queue, rev: Zone, addr: Address, source: Record, mint: RecordId)
    requires w.Placed() && WellPlanned(w.db, q) && w.Holds(rev)
    ensures WellPlanned(w.db, Install(w, q, rev, addr, source, mint))
  {
    var owner := w.ownerIn(rev.id, addr);
    var entry := Entry(rev, owner, source, mint);
    var mid := Enqueue(q, rev, entry);
    AddPlanned(w.db, q, rev, entry);
    assert Install(w, q, rev, addr, source, mint) == Delegate(w, mid, rev, addr, owner, mint, mint + 1);
    DelegatePlanned(w, mid, rev, addr, owner, mint, mint + 1);
  }

  lemma InstallExtra(w: World, q: Queue, rev: Zone, addr: Address, source: Record, mint: RecordId)
    requires q.Proper()
    ensures Install(w, q, rev, addr, source, mint).Proper()
    ensures Extra(q, Install(w, q, rev, addr, source, mint), Installs(w, q, rev, addr, source, mint))
  {
    var owner := w.ownerIn(rev.id, addr);
    var entry := Entry(rev, owner, source, mint);
    var mid := Enqueue(q, rev, entry);
    AddExtra(q, rev, entry);
    DelegateExtra(w, mid, rev, addr, owner, mint, mint + 1);
    ExtraTwice(q, mid, Install(w, q, rev, addr, source, mint), {entry}, SignpostFor(w, mid, rev, addr, owner, mint, mint + 1));
  }

  // ------------------------------------------------- every source present

  /** How far down a chain a record is. */
  function Tier(r: Record): nat
  {
    match r.managedKind
    case None => 0
    case Some(ManagedPtr) => 1
    case Some(ManagedCname) => 2
  }

  /** The row is there and stays. */
  ghost predicate Stays(rows: Rows, q: Queue, id: RecordId)
  {
    id in rows && forall d :: Removes(q, d) ==> d.id != id
  }

  /** Every generated addition hangs off a row that stays or off an addition
      further up. */
  ghost predicate Grounded(rows: Rows, q: Queue)
  {
    forall r {:trigger GroundedOne(rows, q, r)} :: Adds(q, r) ==> GroundedOne(rows, q, r)
  }

  ghost predicate GroundedOne(rows: Rows, q: Queue, r: Record)
  {
    r.managedBy.Some? ==>
      Stays(rows, q, r.managedBy.value) || exists s :: Adds(q, s) && s.id == r.managedBy.value && Tier(s) < Tier(r)
  }

  /** No row and no addition has an identifier from here on. */
  ghost predicate Unused(rows: Rows, q: Queue, mint: RecordId)
  {
    (forall id :: id in rows ==> id < mint) && (forall r :: Adds(q, r) ==> r.id < mint)
  }

  /** A source a record can be generated from. */
  ghost predicate Settled(rows: Rows, q: Queue, source: Record)
  {
    source.managedKind.None? && (Stays(rows, q, source.id) || Adds(q, source))
  }

  lemma SameRemoves(q: Queue, next: Queue)
    requires OnlyAdded(q, next)
    ensures forall d :: Removes(q, d) <==> Removes(next, d)
  {
    forall d
      ensures Removes(q, d) <==> Removes(next, d)
    {
      if z :| z in q.byZone && d in q.byZone[z].deletes {
        assert OnlyAddedIn(q.For(z), next.For(z));
      }
      if z :| z in next.byZone && d in next.byZone[z].deletes {
        assert OnlyAddedIn(q.For(z), next.For(z));
      }
    }
  }

  ghost predicate InShape(db: Db, q: Queue, mint: RecordId)
  {
    WellPlanned(db, q) && Unused(db.rows, q, mint) && Grounded(db.rows, q)
  }

  /** Additions joined the queue, nothing else, and it is still in shape. */
  ghost predicate Grew(db: Db, q: Queue, next: Queue, mint: RecordId)
  {
    InShape(db, next, mint) && OnlyAdded(q, next)
  }

  lemma StillGrounded(rows: Rows, q: Queue, next: Queue, more: set<Record>, r: Record)
    requires GroundedOne(rows, q, r) && Extra(q, next, more)
    ensures GroundedOne(rows, next, r)
  {
    SameRemoves(q, next);
    if r.managedBy.Some? && !Stays(rows, q, r.managedBy.value) {
      var s :| Adds(q, s) && s.id == r.managedBy.value && Tier(s) < Tier(r);
      assert AddedIff(q, next, more, s);
    }
  }

  lemma FamilyGrounded(rows: Rows, q: Queue, next: Queue, more: set<Record>, entry: Record, source: Record, mint: RecordId, r: Record)
    requires Extra(q, next, more) && Family(more, source, mint) && entry in more && entry.id == mint && Tier(entry) == 1
    requires Settled(rows, q, source) && r in more
    ensures GroundedOne(rows, next, r)
  {
    SameRemoves(q, next);
    assert AddedIff(q, next, more, source) && AddedIff(q, next, more, entry);
    if r.id == mint && Tier(r) == 1 {
      if !Stays(rows, q, source.id) {
        assert Adds(next, source) && Tier(source) < Tier(r);
      }
    } else {
      assert Adds(next, entry) && Tier(entry) < Tier(r);
    }
  }

  lemma FamilyGrew(db: Db, q: Queue, next: Queue, more: set<Record>, entry: Record, source: Record, mint: RecordId)
    requires InShape(db, q, mint) && WellPlanned(db, next) && Extra(q, next, more) && Family(more, source, mint)
    requires entry in more && entry.id == mint && Tier(entry) == 1 && Settled(db.rows, q, source)
    ensures Grew(db, q, next, mint + 2)
  {
    SameRemoves(q, next);
    forall r | Adds(next, r)
      ensures GroundedOne(db.rows, next, r) && r.id < mint + 2
    {
      assert AddedIff(q, next, more, r);
      if r in more {
        FamilyGrounded(db.rows, q, next, more, entry, source, mint, r);
      } else {
        assert GroundedOne(db.rows, q, r);
        StillGrounded(db.rows, q, next, more, r);
      }
    }
    assert Grounded(db.rows, next);
  }

  /** Generating only ever adds, and what it adds finds its source. */
  lemma GenerateGrew(w: World, policy: Policy, q: Queue, source: Record, mint: RecordId)
    requires w.Placed() && InShape(w.db, q, mint) && (Reverses(source) ==> Settled(w.db.rows, q, source))
    requires Generate(w, policy, q, source, mint).Ok?
    ensures Grew(w.db, q, Generate(w, policy, q, source, mint).value, mint + 2)
  {
    var next := Generate(w, policy, q, source, mint).value;
    if next != q {
      var addr := AddressOf(source).value;
      var rev := w.zoneFor(addr).value;
      InstallPlanned(w, q, rev, addr, source, mint);
      InstallExtra(w, q, rev, addr, source, mint);
      InstallsFamily(w, q, rev, addr, source, mint);
      FamilyGrew(w.db, q, next, Installs(w, q, rev, addr, source, mint),
                 Entry(rev, w.ownerIn(rev.id, addr), source, mint), source, mint);
    }
  }

  lemma GrewTwice(db: Db, a: Queue, b: Queue, c: Queue, m: RecordId, n: RecordId)
    requires Grew(db, a, b, m) && Grew(db, b, c, n)
    ensures Grew(db, a, c, n)
  {
    forall z
      ensures OnlyAddedIn(a.For(z), c.For(z))
    {
      assert OnlyAddedIn(a.For(z), b.For(z)) && OnlyAddedIn(b.For(z), c.For(z));
    }
  }

  lemma SameGrew(db: Db, q: Queue, mint: RecordId)
    requires InShape(db, q, mint)
    ensures Grew(db, q, q, mint)
  {
    assert OnlyAdded(q, q);
  }

  // ------------------------------------------------------- what it is for

  /** A record that has a reverse entry, in a zone the store holds. */
  predicate Sited(w: World, s: Record)
  {
    Reverses(s) && w.zoneFor(AddressOf(s).value).Some?
  }

  ghost predicate IsEntry(w: World, s: Record, e: Record)
  {
    Sited(w, s) &&
    var addr := AddressOf(s).value;
    var rev := w.zoneFor(addr).value;
    e == Entry(rev, w.ownerIn(rev.id, addr), s, e.id)
  }

  /** The delegation that points at an entry. */
  ghost predicate IsSignpost(w: World, s: Record, e: Record, r: Record)
  {
    IsEntry(w, s, e) &&
    var addr := AddressOf(s).value;
    var rev := w.zoneFor(addr).value;
    var up := Delegator(w, rev, addr);
    up.Some? && r == Signpost(up.value, w.plain(addr), w.ownerIn(rev.id, addr), e.id, r.id)
  }

  /** Something is at a classless entry's ordinary reverse name. */
  ghost predicate Reachable(w: World, q: Queue, s: Record)
    requires Sited(w, s)
  {
    var addr := AddressOf(s).value;
    var up := Delegator(w, w.zoneFor(addr).value, addr);
    up.Some? ==> NameHeld(w.db.rows, q, up.value.id, w.plain(addr))
  }

  /** What a record asks for: its entry, or what points at an entry of its. */
  ghost predicate Implied(w: World, q: Queue, s: Record, r: Record)
  {
    || (IsEntry(w, s, r) && Reachable(w, q, s))
    || exists e :: Adds(q, e) && IsSignpost(w, s, e, r)
  }

  /** The record's address answers: with its name, or under first-wins with any. */
  ghost predicate Answered(w: World, policy: Policy, q: Queue, s: Record)
  {
    Sited(w, s) ==>
      var addr := AddressOf(s).value;
      var rev := w.zoneFor(addr).value;
      if policy == FirstWins then SetHeld(w.db.rows, q, rev.id, Target(w, rev, addr))
      else SetAnswers(w.db.rows, q, rev.id, Target(w, rev, addr), s.name)
  }

  /** Additions take no answer away. */
  lemma HeldStays(rows: Rows, q: Queue, next: Queue, z: ZoneId)
    requires OnlyAdded(q, next)
    ensures forall key :: SetHeld(rows, q, z, key) ==> SetHeld(rows, next, z, key)
    ensures forall key, name :: SetAnswers(rows, q, z, key, name) ==> SetAnswers(rows, next, z, key, name)
    ensures forall name :: NameHeld(rows, q, z, name) ==> NameHeld(rows, next, z, name)
  {
    assert OnlyAddedIn(q.For(z), next.For(z));
    forall id
      ensures Staying(rows, q, z, id) <==> Staying(rows, next, z, id)
    {
    }
    assert forall r :: r in q.For(z).inserts ==> r in next.For(z).inserts;
  }

  lemma AddsStay(q: Queue, next: Queue, r: Record)
    requires OnlyAdded(q, next) && Adds(q, r)
    ensures Adds(next, r)
  {
    var z :| z in q.byZone && r in q.byZone[z].inserts;
    assert OnlyAddedIn(q.For(z), next.For(z));
    assert r in next.For(z).inserts;
  }

  lemma StillImplied(w: World, q: Queue, next: Queue, s: Record, r: Record)
    requires OnlyAdded(q, next) && Implied(w, q, s, r)
    ensures Implied(w, next, s, r)
  {
    if IsEntry(w, s, r) && Reachable(w, q, s) {
      var addr := AddressOf(s).value;
      var up := Delegator(w, w.zoneFor(addr).value, addr);
      if up.Some? { HeldStays(w.db.rows, q, next, up.value.id); }
    } else {
      var e :| Adds(q, e) && IsSignpost(w, s, e, r);
      AddsStay(q, next, e);
    }
  }

  lemma StillAnswered(w: World, policy: Policy, q: Queue, next: Queue, s: Record)
    requires OnlyAdded(q, next) && Answered(w, policy, q, s)
    ensures Answered(w, policy, next, s)
  {
    if Sited(w, s) {
      HeldStays(w.db.rows, q, next, w.zoneFor(AddressOf(s).value).value.id);
    }
  }

  lemma EnqueueHolds(rows: Rows, q: Queue, z: Zone, r: Record)
    ensures SetHeld(rows, Enqueue(q, z, r), z.id, SetKey(r))
    ensures forall name :: r.data == NameData(name) ==> SetAnswers(rows, Enqueue(q, z, r), z.id, SetKey(r), name)
    ensures NameHeld(rows, Enqueue(q, z, r), z.id, r.name)
  {
    assert r in Enqueue(q, z, r).For(z.id).inserts;
  }

  lemma DelegateReaches(w: World, q: Queue, child: Zone, addr: Address, target: Name, entry: RecordId, id: RecordId)
    ensures var up := Delegator(w, child, addr);
            up.Some? ==> NameHeld(w.db.rows, Delegate(w, q, child, addr, target, entry, id), up.value.id, w.plain(addr))
  {
    var up := Delegator(w, child, addr);
    if up.Some? {
      EnqueueHolds(w.db.rows, q, up.value, Signpost(up.value, w.plain(addr), target, entry, id));
    }
  }

  /** What generating from one record does: nothing but additions, each of them
      asked for, and then the address answers. */
  ghost predicate Generates(w: World, policy: Policy, q: Queue, next: Queue, s: Record)
  {
    && next.Proper() && OnlyAdded(q, next) && Answered(w, policy, next, s)
    && forall r {:trigger Adds(next, r)} :: Adds(next, r) ==> Adds(q, r) || Implied(w, next, s, r)
  }

  lemma InstallAnswers(w: World, policy: Policy, q: Queue, mid: Queue, next: Queue, s: Record, entry: Record)
    requires IsEntry(w, s, entry) && mid == Enqueue(q, w.zoneFor(AddressOf(s).value).value, entry) && OnlyAdded(mid, next)
    ensures Answered(w, policy, next, s)
  {
    var rev := w.zoneFor(AddressOf(s).value).value;
    EnqueueHolds(w.db.rows, q, rev, entry);
    HeldStays(w.db.rows, mid, next, rev.id);
  }

  lemma InstallImplies(w: World, q: Queue, next: Queue, s: Record, entry: Record, more: set<Record>, r: Record)
    requires IsEntry(w, s, entry) && Reachable(w, next, s) && Extra(q, next, more) && entry in more && r in more
    requires r == entry || IsSignpost(w, s, entry, r)
    ensures Implied(w, next, s, r)
  {
    assert AddedIff(q, next, more, entry);
  }

  lemma InstallGenerates(w: World, policy: Policy, q: Queue, rev: Zone, addr: Address, s: Record, mint: RecordId, next: Queue)
    requires q.Proper() && Sited(w, s) && addr == AddressOf(s).value && w.zoneFor(addr) == Some(rev)
    requires next == Install(w, q, rev, addr, s, mint)
    ensures Generates(w, policy, q, next, s)
  {
    var owner := w.ownerIn(rev.id, addr);
    var entry := Entry(rev, owner, s, mint);
    var mid, more := Enqueue(q, rev, entry), Installs(w, q, rev, addr, s, mint);
    InstallExtra(w, q, rev, addr, s, mint);
    AddExtra(q, rev, entry);
    DelegateExtra(w, mid, rev, addr, owner, mint, mint + 1);
    InstallAnswers(w, policy, q, mid, next, s, entry);
    DelegateReaches(w, mid, rev, addr, owner, mint, mint + 1);
    forall r | Adds(next, r)
      ensures Adds(q, r) || Implied(w, next, s, r)
    {
      assert AddedIff(q, next, more, r);
      if r in more { InstallImplies(w, q, next, s, entry, more, r); }
    }
  }

  lemma GenerateGenerates(w: World, policy: Policy, q: Queue, s: Record, mint: RecordId, next: Queue)
    requires q.Proper() && Generate(w, policy, q, s, mint) == Ok(next)
    ensures Generates(w, policy, q, next, s)
  {
    SameExtra(q);
    if next != q {
      var addr := AddressOf(s).value;
      InstallGenerates(w, policy, q, w.zoneFor(addr).value, addr, s, mint, next);
    }
  }

  // ---------------------------------------------------- several records

  /** Generating from one record after another. */
  function Spread(w: World, policy: Policy, q: Queue, sources: seq<Record>, mint: RecordId): Result<Queue>
  {
    if sources == [] then Ok(q)
    else
      var n := |sources| - 1;
      match Spread(w, policy, q, sources[..n], mint)
      case Err(why) => Err(why)
      case Ok(mid) => Generate(w, policy, mid, sources[n], mint + 2 * n)
  }

  lemma {:induction false} SpreadInStep(w: World, policy: Policy, q: Queue, sources: seq<Record>, mint: RecordId)
    requires AllInStep(q) && Spread(w, policy, q, sources, mint).Ok?
    ensures AllInStep(Spread(w, policy, q, sources, mint).value)
  {
    if sources != [] {
      var n := |sources| - 1;
      SpreadInStep(w, policy, q, sources[..n], mint);
      GenerateInStep(w, policy, Spread(w, policy, q, sources[..n], mint).value, sources[n], mint + 2 * n);
    }
  }

  ghost predicate ImpliedBySome(w: World, q: Queue, sources: seq<Record>, r: Record)
  {
    exists s :: s in sources && Implied(w, q, s, r)
  }

  ghost predicate GeneratesAll(w: World, policy: Policy, q: Queue, next: Queue, sources: seq<Record>)
  {
    && next.Proper() && OnlyAdded(q, next)
    && (forall s :: s in sources ==> Answered(w, policy, next, s))
    && forall r {:trigger Adds(next, r)} :: Adds(next, r) ==> Adds(q, r) || ImpliedBySome(w, next, sources, r)
  }

  lemma GeneratesOneMore(w: World, policy: Policy, q: Queue, mid: Queue, next: Queue, sources: seq<Record>, s: Record)
    requires GeneratesAll(w, policy, q, mid, sources) && Generates(w, policy, mid, next, s)
    ensures GeneratesAll(w, policy, q, next, sources + [s])
  {
    forall z
      ensures OnlyAddedIn(q.For(z), next.For(z))
    {
      assert OnlyAddedIn(q.For(z), mid.For(z)) && OnlyAddedIn(mid.For(z), next.For(z));
    }
    forall t | t in sources + [s]
      ensures Answered(w, policy, next, t)
    {
      if t in sources { StillAnswered(w, policy, mid, next, t); }
    }
    forall r | Adds(next, r)
      ensures Adds(q, r) || ImpliedBySome(w, next, sources + [s], r)
    {
      if Adds(mid, r) {
        if !Adds(q, r) {
          var t :| t in sources && Implied(w, mid, t, r);
          StillImplied(w, mid, next, t, r);
          assert t in sources + [s];
        }
      } else {
        assert s in sources + [s];
      }
    }
  }

  lemma SpreadLast(w: World, policy: Policy, q: Queue, front: seq<Record>, s: Record, mint: RecordId, next: Queue) returns (mid: Queue)
    requires Spread(w, policy, q, front + [s], mint) == Ok(next)
    ensures Spread(w, policy, q, front, mint) == Ok(mid) && Generate(w, policy, mid, s, mint + 2 * |front|) == Ok(next)
  {
    assert (front + [s])[..|front|] == front;
    mid := Spread(w, policy, q, front, mint).value;
  }

  lemma {:induction false} SpreadGenerates(w: World, policy: Policy, q: Queue, sources: seq<Record>, mint: RecordId, next: Queue)
    requires q.Proper() && Spread(w, policy, q, sources, mint) == Ok(next)
    ensures GeneratesAll(w, policy, q, next, sources)
    decreases |sources|
  {
    if sources == [] {
      SameExtra(q);
    } else {
      var n := |sources| - 1;
      var front, s := sources[..n], sources[n];
      assert front + [s] == sources;
      var mid := SpreadLast(w, policy, q, front, s, mint, next);
      SpreadGenerates(w, policy, q, front, mint, mid);
      GenerateGenerates(w, policy, mid, s, mint + 2 * n, next);
      GeneratesOneMore(w, policy, q, mid, next, front, s);
    }
  }

  lemma SettledStill(db: Db, mid: Queue, next: Queue, mint: RecordId, r: Record)
    requires Grew(db, mid, next, mint) && Settled(db.rows, mid, r)
    ensures Settled(db.rows, next, r)
  {
    SameRemoves(mid, next);
    if !Stays(db.rows, mid, r.id) {
      AddsStay(mid, next, r);
    }
  }

  lemma {:induction false} SpreadGrew(w: World, policy: Policy, q: Queue, sources: seq<Record>, mint: RecordId, next: Queue)
    requires w.Placed() && InShape(w.db, q, mint) && Spread(w, policy, q, sources, mint) == Ok(next)
    requires forall s :: s in sources && Reverses(s) ==> Settled(w.db.rows, q, s)
    ensures Grew(w.db, q, next, mint + 2 * |sources|)
    decreases |sources|
  {
    if sources == [] {
      SameGrew(w.db, q, mint);
    } else {
      var n := |sources| - 1;
      var front, s := sources[..n], sources[n];
      assert front + [s] == sources;
      var mid := SpreadLast(w, policy, q, front, s, mint, next);
      SpreadGrew(w, policy, q, front, mint, mid);
      GrewOneMore(w, policy, q, mid, s, mint + 2 * n, next);
    }
  }

  lemma GrewOneMore(w: World, policy: Policy, q: Queue, mid: Queue, s: Record, mint: RecordId, next: Queue)
    requires w.Placed() && Grew(w.db, q, mid, mint) && Generate(w, policy, mid, s, mint) == Ok(next)
    requires Reverses(s) ==> Settled(w.db.rows, q, s)
    ensures Grew(w.db, q, next, mint + 2)
  {
    if Reverses(s) { SettledStill(w.db, q, mid, mint, s); }
    GenerateGrew(w, policy, mid, s, mint);
    GrewTwice(w.db, q, mid, next, mint, mint + 2);
  }

  /** Part way through the records, with the identifiers they asked for. */
  ghost predicate Reached(w: World, policy: Policy, start: Queue, first: RecordId, sources: seq<Record>, q: Queue, mint: RecordId)
  {
    Spread(w, policy, start, sources, first) == Ok(q) && mint == first + 2 * |sources|
  }

  lemma ReachedMore(w: World, policy: Policy, start: Queue, first: RecordId, sources: seq<Record>, q: Queue, mint: RecordId, s: Record)
    requires Reached(w, policy, start, first, sources, q, mint) && Generate(w, policy, q, s, mint).Ok?
    ensures Reached(w, policy, start, first, sources + [s], Generate(w, policy, q, s, mint).value, mint + 2)
  {
    assert (sources + [s])[..|sources|] == sources;
  }
}
