/** A run from an empty store to an address record, its entry and the delegation that
    points at it, and the deletion that then breaks a third zone's law. */
module Cases {
  import opened Dns
  import opened Journal
  import opened Changes
  import opened Ordering
  import opened Store
  import opened Write
  import opened View
  import opened Carry
  import opened Batch
  import opened History
  import opened Upkeep
  import opened Runs
  import opened Queues
  import opened Departure
  import opened Reverse
  import opened Generation
  import opened Expansion
  import opened Lifetime
  import opened Acceptance
  import opened Asking
  import opened Effects

  // -------------------------------------------------------- where addresses belong

  /** A reverse zone for some addresses, with the zone above it if it is classless, and
      the names the addresses have. */
  datatype Site = Site(rev: ZoneId, up: Option<ZoneId>, near: set<Address>, owner: (ZoneId, Address) -> Name, plain: Address -> Name)

  ghost function Around(s: Site, db: Db): World
    requires RowsOk(db.rows)
  {
    World(db, (id: RecordId) => Derived(db.rows, id),
          (a: Address) => if a in s.near && s.rev in db.zones then Some(db.zones[s.rev]) else None,
          s.owner, s.plain,
          (n: Name) => if s.up.Some? && s.up.value in db.zones && db.zones[s.up.value].name == n then Some(db.zones[s.up.value]) else None,
          true)
  }

  lemma AroundIsValid(s: Site, db: Db)
    requires Integrity(db) && Acyclic(db.rows)
    ensures Around(s, db).Valid()
  {
    forall id
      ensures Lists(db.rows, id, Around(s, db).below(id))
    {
      assert Around(s, db).below(id) == Derived(db.rows, id);
    }
  }

  // ------------------------------------------------------------ a zone, created

  function Creating(z: ZoneId, id: CommitId): Intent
  {
    Intent(z, "", ZoneCreate, None, Meta(FromApi, "", ""), true, id)
  }

  ghost function Founding(s: Site, db: Db, z: Zone, r: Record, id: CommitId): Change
    requires RowsOk(db.rows)
  {
    Created(Around(s, Housing(db, z)), FirstWins, Creating(z.id, id), z, NO_CHANGES.Insert(r), Authoring(z, r))
  }

  /** A zone more, with one record and the commit that created both. */
  ghost function Found(db: Db, z: Zone, r: Record, id: CommitId): Db
  {
    Db(db.zones[z.id := z], db.rows[r.id := r], db.commits + [CommitFor(Creating(z.id, id), z, NO_CHANGES.Insert(r), id)])
  }

  /** A valid zone the store has not had, with a name server at its apex. */
  ghost predicate Foundable(db: Db, z: Zone, r: Record)
  {
    && z.id !in db.zones && Of(db.commits, z.id) == [] && ValidZone(z) && z.soa.serial != 0 && FreeName(db.zones, z)
    && r.id !in db.rows && Apex(z, r)
  }

  ghost predicate Apex(z: Zone, r: Record)
  {
    r.zone == z.id && r.name == z.name && r.typ == NS && ValidRecord(r) && r.managedBy.None? && r.managedKind.None?
  }

  lemma FoundPlanned(s: Site, db: Db, z: Zone, r: Record, id: CommitId)
    requires Integrity(db) && Foundable(db, z, r)
    ensures PlannedOn(db, Founding(s, db, z, r, id))
  {
    OneAddition(z, r);
    FoundExpands(Around(s, Housing(db, z)), z, r);
  }

  lemma FoundExpands(w: World, z: Zone, r: Record)
    requires Integrity(w.db) && w.Holds(z) && Apex(z, r) && r.id !in w.db.rows
    ensures Expanded(w, FirstWins, Authoring(z, r), z.id, Authoring(z, r))
  {
    var c := NO_CHANGES.Insert(r);
    OneAddition(z, r);
    FoundCommanded(w.db, z, c, r);
    OneZoneGathers(z, c);
    NothingToExpand(w, FirstWins, Put(NO_QUEUE, z, c), z.id);
  }

  lemma FoundCommanded(db: Db, z: Zone, c: Changes, r: Record)
    requires Integrity(db) && z.id in db.zones && db.zones[z.id] == z && Apex(z, r) && r.id !in db.rows && c == NO_CHANGES.Insert(r)
    ensures Commanded(db, Put(NO_QUEUE, z, c), z.id)
  {
    assert c.deletes == [] && c.updates == [] && c.inserts == [r];
    assert WellQueuedIn(db.rows, z.id, c);
    OneZoneCommanded(db, z, c);
  }

  lemma OneInserted(db: Db, z: Zone, r: Record)
    requires AddableOne(db, r) && r.managedBy.None?
    ensures WriteQueue(db, Authoring(z, r)) == Ok(db.(rows := db.rows[r.id := r]))
  {
    var c := NO_CHANGES.Insert(r);
    OneZoneGathers(z, c);
    OneOrdered(r, true);
    OneOrdered(r, false);
    assert c.inserts == [r] && [r][1..] == [];
    assert InsertAll(db, [r]) == InsertAll(db.(rows := db.rows[r.id := r]), [r][1..]);
  }

  lemma FirstCommitIs(z: Zone, r: Record, id: CommitId)
    requires z.soa.serial != 0 && r.typ != SOA
    ensures var k := CommitFor(Creating(z.id, id), z, NO_CHANGES.Insert(r), id);
            k.id == id && k.zone == z.id && k.serialTo == z.soa.serial && ValidCommit(k)
  {
    var c := NO_CHANGES.Insert(r);
    OneAddition(z, r);
    assert Arriving(c) == [r];
    assert Keys([]) == {};
    CreationReplays(Creating(z.id, id), z, c, id);
  }

  lemma FirstIsUnused(db: Db, z: ZoneId, c: Commit, mint: CommitId, n: nat)
    requires Room(db, mint, n) && mint <= c.id && c.zone == z && Of(db.commits, z) == []
    ensures Acceptance.Unused(db.commits, c)
  {
    forall i | 0 <= i < |db.commits|
      ensures !SameSlot(db.commits[i], c)
    {
      OfMembers(db.commits, z, db.commits[i]);
    }
  }

  lemma FoundWritten(db: Db, z: Zone, r: Record, id: CommitId, n: nat, b: Batch, k: Commit)
    requires Integrity(db) && Foundable(db, z, r) && Room(db, id, n) && b == Batch([CreateOp(z)], Authoring(z, r), [k])
    requires k.id == id && k.zone == z.id && ValidCommit(k)
    ensures WriteBatch(db, b) == Ok(Db(db.zones[z.id := z], db.rows[r.id := r], db.commits + [k]))
  {
    var housed := Housing(db, z);
    assert b.ops[1..] == [] && b.commits[1..] == [];
    assert CreateZone(db, z) == Ok(housed);
    assert WriteOps(db, b.ops) == WriteOps(housed, b.ops[1..]);
    OneInserted(housed, z, r);
    var carried := housed.(rows := db.rows[r.id := r]);
    FirstIsUnused(db, z.id, k, id, n);
    assert b.ops[0].Id() == z.id && b.HasOp(z.id);
    OneZoneGathers(z, NO_CHANGES.Insert(r));
    var recorded := carried.(commits := db.commits + [k]);
    assert WriteCommit(carried, b, k) == Ok(recorded);
    assert WriteCommits(carried, b, b.commits) == WriteCommits(recorded, b, b.commits[1..]);
    assert WriteDrops(recorded, b.ops) == WriteDrops(recorded, b.ops[1..]);
  }

  lemma FoundBatch(z: Zone, r: Record, id: CommitId)
    ensures Authoring(z, r).Proper()
    ensures CreateBatch(Creating(z.id, id), z, Authoring(z, r)) ==
            Batch([CreateOp(z)], Authoring(z, r), [CommitFor(Creating(z.id, id), z, NO_CHANGES.Insert(r), id)])
  {
    var q, p := Authoring(z, r), Creating(z.id, id);
    OneZoneGathers(z, NO_CHANGES.Insert(r));
    assert Planned(p, q, 1) == Planned(p, q, 0) + PlannedAt(p, q, 0);
  }

  lemma FoundAccepted(db: Db, z: Zone, r: Record, id: CommitId, n: nat)
    requires Integrity(db) && Foundable(db, z, r) && Room(db, id, n)
    ensures Authoring(z, r).Proper() && WriteBatch(db, CreateBatch(Creating(z.id, id), z, Authoring(z, r))) == Ok(Found(db, z, r, id))
  {
    FoundBatch(z, r, id);
    FirstCommitIs(z, r, id);
    FoundWritten(db, z, r, id, n, CreateBatch(Creating(z.id, id), z, Authoring(z, r)), CommitFor(Creating(z.id, id), z, NO_CHANGES.Insert(r), id));
  }

  /** Creating it is taken, and there is as much room as before. */
  lemma FoundTaken(s: Site, db: Db, z: Zone, r: Record, id: CommitId, n: nat, now: Db)
    requires Began(db, id, n) && Foundable(db, z, r) && now == Found(db, z, r, id)
    ensures Taken(db, Founding(s, db, z, r, id), now) && Began(now, id + 1, n)
  {
    FoundPlanned(s, db, z, r, id);
    FoundAccepted(db, z, r, id, n);
    FirstCommitIs(z, r, id);
    TakenLawfulIff(db, Founding(s, db, z, r, id), now);
    FoundRoom(db, z, r, id, n, now);
  }

  lemma FoundOccurs(s: Site, db: Db, z: Zone, r: Record, id: CommitId, n: nat, now: Db)
    requires Occurs(db) && Began(db, id, n) && Foundable(db, z, r) && now == Found(db, z, r, id)
    ensures Occurs(now) && Began(now, id + 1, n)
  {
    FoundTaken(s, db, z, r, id, n, now);
    TakenOccurs(db, Founding(s, db, z, r, id), now);
  }

  lemma FoundRoom(db: Db, z: Zone, r: Record, id: CommitId, n: nat, now: Db)
    requires Room(db, id, n) && Foundable(db, z, r) && now == Found(db, z, r, id)
    ensures Room(now, id + 1, n)
  {
    FirstCommitIs(z, r, id);
    forall i | 0 <= i < |now.commits|
      ensures now.commits[i].id < id + 1 && Recent(now, now.commits[i], n)
    {
      if i < |db.commits| {
        assert Recent(db, db.commits[i], n);
        OfMembers(db.commits, z.id, db.commits[i]);
      }
    }
  }

  /** What can be created can still be, after another zone is. */
  lemma StillFoundable(db: Db, z: Zone, r: Record, id: CommitId, y: Zone, ry: Record)
    requires Foundable(db, y, ry) && y.id != z.id && y.name != z.name && ry.id != r.id
    ensures Foundable(Found(db, z, r, id), y, ry)
  {
    var k := CommitFor(Creating(z.id, id), z, NO_CHANGES.Insert(r), id);
    OfConcat(db.commits, [k], y.id);
    OneOf(k, y.id);
  }

  lemma OneOf(c: Commit, z: ZoneId)
    ensures Of([c], z) == if c.zone == z then [c] else []
  {
    assert [c][1..] == [];
  }

  // ------------------------------------- an address, its entry, what points at it

  /** Three zones with their name servers: one for an address record, a classless zone
      for its entry, and the zone above that. */
  datatype Scene = Scene(f: Zone, c: Zone, p: Zone, nf: Record, nc: Record, np: Record, a: Record, addr: Address, first: RecordId)

  ghost predicate Strung(s: Site, t: Scene)
  {
    && t.f.id != t.c.id && t.f.id != t.p.id && t.c.id != t.p.id
    && t.f.name != t.c.name && t.f.name != t.p.name && t.c.name != [] && t.p.name == t.c.name[1..]
    && Foundable(NO_DATA, t.f, t.nf) && Foundable(NO_DATA, t.c, t.nc) && Foundable(NO_DATA, t.p, t.np)
    && t.f.autoReverse != Some(false)
    && t.nf.id < t.nc.id < t.np.id < t.a.id < t.first
    && t.a.zone == t.f.id && ValidRecord(t.a) && AddressOf(t.a) == Some(t.addr) && Reverses(t.a) && Contains(t.f, t.a.name)
    && s.rev == t.c.id && s.up == Some(t.p.id) && t.addr in s.near
    && !IsSubDomainOf(s.plain(t.addr), t.c.name) && s.plain(t.addr) != t.p.name
  }

  /** The address 192.0.2.1, in a network a part of which is delegated. */
  lemma StrungAddress() returns (s: Site, t: Scene)
    ensures Strung(s, t) && Contains(t.c, s.owner(t.c.id, t.addr))
  {
    var soa := Soa(["ns", "example"], ["admin", "example"], 1, 3600, 600, 86400, 300, 300);
    var f := Zone(1, ["example"], None, soa, 300, None, false, "");
    var c := Zone(2, ["0-25", "2", "0", "192", "in-addr", "arpa"], Some(25), soa, 300, None, false, "");
    var p := Zone(3, c.name[1..], Some(24), soa, 300, None, false, "");
    var server := (id: RecordId, z: Zone) => Record(id, z.id, z.name, CLASS_IN, NS, 300, NameData(soa.ns), None, None, "", false);
    var a := Record(4, 1, ["www", "example"], CLASS_IN, A, 300, AddressData(0xc000_0201), None, None, "", false);
    s := Site(2, Some(3), {0xc000_0201}, (z, addr) => ["1"] + c.name, addr => ["1"] + p.name);
    t := Scene(f, c, p, server(1, f), server(2, c), server(3, p), a, 0xc000_0201, 5);
    assert |s.plain(t.addr)| == |t.c.name| && s.plain(t.addr)[0] != t.c.name[0];
    assert Of(NO_DATA.commits, 1) == Of(NO_DATA.commits, 2) == Of(NO_DATA.commits, 3) == [];
  }

  ghost function EntryOf(s: Site, t: Scene): Record
  {
    Entry(t.c, s.owner(t.c.id, t.addr), t.a, t.first)
  }

  ghost function PostOf(s: Site, t: Scene): Record
  {
    Signpost(t.p, s.plain(t.addr), s.owner(t.c.id, t.addr), t.first, t.first + 1)
  }

  /** The same zone, whatever its serial. */
  predicate Like(y: Zone, z: Zone)
  {
    y.(soa := y.soa.(serial := 0)) == z.(soa := z.soa.(serial := 0))
  }

  ghost predicate ZonesOf(t: Scene, zones: map<ZoneId, Zone>)
  {
    zones.Keys == {t.f.id, t.c.id, t.p.id} && Like(zones[t.f.id], t.f) && Like(zones[t.c.id], t.c) && Like(zones[t.p.id], t.p)
  }

  function Servers(t: Scene): Rows
  {
    map[t.nf.id := t.nf, t.nc.id := t.nc, t.np.id := t.np]
  }

  ghost predicate Posted(s: Site, t: Scene, db: Db)
  {
    ZonesOf(t, db.zones) && db.rows == Servers(t)[t.a.id := t.a][t.first := EntryOf(s, t)][t.first + 1 := PostOf(s, t)]
  }

  /** The three zones, created one after another. */
  ghost predicate Zoned(t: Scene, one: Db, two: Db, three: Db)
  {
    one == Found(NO_DATA, t.p, t.np, 0) && two == Found(one, t.c, t.nc, 1) && three == Found(two, t.f, t.nf, 2)
  }

  lemma StartsBegan()
    ensures Began(NO_DATA, 0, 0)
  {
    StartsLawful();
  }

  lemma ZonedFoundable(s: Site, t: Scene, one: Db, two: Db, three: Db)
    requires Strung(s, t) && Zoned(t, one, two, three)
    ensures Foundable(one, t.c, t.nc) && Foundable(two, t.f, t.nf)
  {
    assert t.c.name != t.p.name by { assert |t.c.name| != |t.p.name|; }
    StillFoundable(NO_DATA, t.p, t.np, 0, t.c, t.nc);
    StillFoundable(NO_DATA, t.p, t.np, 0, t.f, t.nf);
    StillFoundable(one, t.c, t.nc, 1, t.f, t.nf);
  }

  lemma ZonesOccur(s: Site, t: Scene, one: Db, two: Db, three: Db)
    requires Strung(s, t) && Zoned(t, one, two, three)
    ensures Occurs(three) && Began(three, 3, 0)
  {
    StartsBegan();
    StartsOccurring();
    ZonedFoundable(s, t, one, two, three);
    FoundOccurs(s, NO_DATA, t.p, t.np, 0, 0, one);
    FoundOccurs(s, one, t.c, t.nc, 1, 0, two);
    FoundOccurs(s, two, t.f, t.nf, 2, 0, three);
  }

  ghost predicate OnlyZones(t: Scene, db: Db)
  {
    db.rows == Servers(t) && db.zones == map[t.p.id := t.p, t.c.id := t.c, t.f.id := t.f]
  }

  lemma ZonedIs(s: Site, t: Scene, one: Db, two: Db, three: Db)
    requires Strung(s, t) && Zoned(t, one, two, three)
    ensures OnlyZones(t, three)
  {
  }

  lemma SpotIsFree(s: Site, t: Scene, rows: Rows, key: RRsetKey)
    requires Strung(s, t) && rows == Servers(t) && key.typ == PTR
    ensures !SetHeld(rows, Authoring(t.f, t.a), t.c.id, key)
  {
    PutProper(NO_QUEUE, t.f, NO_CHANGES.Insert(t.a));
    assert Authoring(t.f, t.a).For(t.c.id) == NO_CHANGES;
    assert forall id :: id in rows ==> rows[id].typ == NS;
  }

  lemma NameIsFree(s: Site, t: Scene, rows: Rows, mid: Queue)
    requires Strung(s, t) && rows == Servers(t) && mid == Enqueue(Authoring(t.f, t.a), t.c, EntryOf(s, t))
    ensures !NameHeld(rows, mid, t.p.id, s.plain(t.addr))
  {
    var q := Authoring(t.f, t.a);
    PutProper(NO_QUEUE, t.f, NO_CHANGES.Insert(t.a));
    PutProper(q, t.c, q.For(t.c.id).Insert(EntryOf(s, t)));
    assert mid.For(t.p.id) == NO_CHANGES;
    assert forall id :: id in rows && rows[id].zone == t.p.id ==> rows[id].name == t.p.name;
  }

  /** Its spot and the name above it are free, so the address brings both. */
  lemma AddressBrings(s: Site, t: Scene, w: World)
    requires Strung(s, t) && RowsOk(w.db.rows) && OnlyZones(t, w.db) && w == Around(s, w.db)
    ensures Brings(w, FirstWins, t.f, t.a, t.first) == [EntryOf(s, t), PostOf(s, t)]
  {
    var q, e := Authoring(t.f, t.a), EntryOf(s, t);
    var mid := Enqueue(q, t.c, e);
    assert w.zoneFor(t.addr) == Some(t.c) && w.named(t.p.name) == Some(t.p);
    SpotIsFree(s, t, w.db.rows, Target(w, t.c, t.addr));
    NameIsFree(s, t, w.db.rows, mid);
    assert Delegator(w, t.c, t.addr) == Some(t.p);
    assert Posts(w, mid, t.c, t.addr, t.first) == [PostOf(s, t)];
  }

  // ----------------------------------------------------------------- the address, added

  lemma SceneAuthorable(s: Site, t: Scene, w: World)
    requires Strung(s, t) && Integrity(w.db) && Acyclic(w.db.rows) && OnlyZones(t, w.db) && w == Around(s, w.db)
    ensures Authorable(w, FirstWins, t.f, t.a, t.first)
  {
    AroundIsValid(s, w.db);
    SceneAddable(s, t, w.db);
  }

  lemma SceneAddable(s: Site, t: Scene, db: Db)
    requires Strung(s, t) && OnlyZones(t, db)
    ensures AddableOne(db, t.a) && t.f.id in db.zones && db.zones[t.f.id] == t.f
    ensures (forall id :: id in db.rows ==> id < t.first) && forall y :: y in db.zones ==> db.zones[y].defaultTtl <= MAX_TTL
  {
    assert forall id :: id in db.rows ==> db.rows[id].typ == NS;
  }

  lemma AllThere(s: Site, t: Scene, rows: Rows)
    requires Strung(s, t) && Extended(Servers(t), rows, [t.a] + [EntryOf(s, t), PostOf(s, t)])
    ensures rows == Servers(t)[t.a.id := t.a][t.first := EntryOf(s, t)][t.first + 1 := PostOf(s, t)]
  {
    var rs := [t.a] + [EntryOf(s, t), PostOf(s, t)];
    assert rs == [t.a, EntryOf(s, t), PostOf(s, t)];
    assert Ids(rs) == {t.a.id, t.first, t.first + 1} by {
      assert rs[0].id in Ids(rs) && rs[1].id in Ids(rs) && rs[2].id in Ids(rs);
    }
    assert rows[rs[0].id] == rs[0] && rows[rs[1].id] == rs[1] && rows[rs[2].id] == rs[2];
  }

  lemma StillZones(t: Scene, db: Db, q: Queue, now: Db)
    requires db.zones == map[t.p.id := t.p, t.c.id := t.c, t.f.id := t.f] && MovedOn(db, q, now)
    requires t.f.id != t.c.id && t.f.id != t.p.id && t.c.id != t.p.id
    ensures ZonesOf(t, now.zones)
  {
  }

  lemma SceneEnters(s: Site, t: Scene, w: World)
    requires Strung(s, t) && Integrity(w.db) && Acyclic(w.db.rows) && OnlyZones(t, w.db) && w == Around(s, w.db)
    ensures Entering(w, FirstWins, t.f, t.a, t.first, [EntryOf(s, t), PostOf(s, t)])
  {
    SceneAuthorable(s, t, w);
    AddressBrings(s, t, w);
  }

  lemma AddressAdded(s: Site, t: Scene, three: Db, id: CommitId, n: nat) returns (next: Queue, db: Db, mint: CommitId)
    requires Strung(s, t) && Occurs(three) && Began(three, id, n) && n < 10 && OnlyZones(t, three)
    ensures Occurs(db) && Began(db, mint, n + 1) && MovedOn(three, next, db)
    ensures Extended(three.rows, db.rows, [t.a] + [EntryOf(s, t), PostOf(s, t)])
  {
    SceneEnters(s, t, Around(s, three));
    next, db, mint := EnteringOccurs(Around(s, three), FirstWins, t.f, t.a, t.first, [EntryOf(s, t), PostOf(s, t)], id, n);
  }

  lemma ChainAdded(s: Site, t: Scene, three: Db, id: CommitId, n: nat) returns (db: Db, mint: CommitId)
    requires Strung(s, t) && Occurs(three) && Began(three, id, n) && n < 10 && OnlyZones(t, three)
    ensures Occurs(db) && Began(db, mint, n + 1) && Posted(s, t, db)
  {
    var next;
    next, db, mint := AddressAdded(s, t, three, id, n);
    AllThere(s, t, db.rows);
    StillZones(t, three, next, db);
  }

  /** A run from nothing reaches an address record, its entry and its delegation. */
  lemma ChainOccurs(s: Site, t: Scene) returns (db: Db, mint: CommitId)
    requires Strung(s, t)
    ensures Occurs(db) && Began(db, mint, 1) && Posted(s, t, db)
  {
    var one := Found(NO_DATA, t.p, t.np, 0);
    var two := Found(one, t.c, t.nc, 1);
    var three := Found(two, t.f, t.nf, 2);
    ZonesOccur(s, t, one, two, three);
    ZonedIs(s, t, one, two, three);
    db, mint := ChainAdded(s, t, three, 3, 0);
  }

  // ----------------------------------------------------------- deleting the first zone

  lemma ChainBelow(s: Site, t: Scene, rows: Rows)
    requires Strung(s, t) && rows == Servers(t)[t.a.id := t.a][t.first := EntryOf(s, t)][t.first + 1 := PostOf(s, t)]
    ensures forall id :: id in rows && rows[id].managedBy.Some? ==> id == t.first || id == t.first + 1
    ensures rows[t.first] == EntryOf(s, t) && rows[t.first + 1] == PostOf(s, t) && rows[t.a.id] == t.a
  {
  }

  lemma ChainHangs(s: Site, t: Scene, rows: Rows)
    requires Strung(s, t) && rows == Servers(t)[t.a.id := t.a][t.first := EntryOf(s, t)][t.first + 1 := PostOf(s, t)]
    ensures Hanging(rows, t.f.id) == {t.first} && !Shallow(rows, t.f.id)
    ensures t.first + 1 in Cascade(rows, {t.first})
  {
    ChainBelow(s, t, rows);
    assert Hanging(rows, t.f.id) == {t.first};
    assert t.first + 1 in Below(rows, Cascade(rows, {t.first}));
  }

  function OneLeaves(c: Zone, e: Record): Queue
  {
    Put(NO_QUEUE, c, NO_CHANGES.Remove(e))
  }

  /** A row is all the zone generated elsewhere. */
  ghost predicate AllElsewhere(db: Db, f: ZoneId, c: Zone, e: Record)
  {
    && f in db.zones && c.id in db.zones && db.zones[c.id] == c && c.id != f && e.zone == c.id
    && e.id in db.rows && db.rows[e.id] == e && Hanging(db.rows, f) == {e.id}
  }

  lemma OneDeparts(db: Db, f: ZoneId, c: Zone, e: Record, mint: CommitId, n: nat)
    requires AllElsewhere(db, f, c, e) && Room(db, mint, n) && n < SERIAL_SPACE - 1
    ensures Deletable(db, Editing(f, mint + 1), f, OneLeaves(c, e), mint, n)
    ensures WriteQueue(db, OneLeaves(c, e)) == Ok(db.(rows := db.rows - Cascade(db.rows, {e.id})))
  {
    var q := OneLeaves(c, e);
    OneRemoval(e);
    OneZoneGathers(c, NO_CHANGES.Remove(e));
    assert AsRead(db, q, c.id);
    OneRemoved(db, c, e);
  }

  lemma ChainElsewhere(s: Site, t: Scene, db: Db)
    requires Strung(s, t) && Posted(s, t, db) && Integrity(db)
    ensures AllElsewhere(db, t.f.id, db.zones[t.c.id], EntryOf(s, t)) && !Shallow(db.rows, t.f.id)
    ensures LosesThere(db, t.f.id, db.zones[t.c.id], EntryOf(s, t), t.p.id, PostOf(s, t))
  {
    ChainBelow(s, t, db.rows);
    ChainHangs(s, t, db.rows);
  }

  lemma OneRemoved(db: Db, z: Zone, r: Record)
    requires r.id in db.rows && db.rows[r.id] == r
    ensures WriteQueue(db, Put(NO_QUEUE, z, NO_CHANGES.Remove(r))) == Ok(db.(rows := db.rows - Cascade(db.rows, {r.id})))
  {
    var c := NO_CHANGES.Remove(r);
    OneZoneGathers(z, c);
    OneOrdered(r, true);
    OneOrdered(r, false);
    assert c.deletes == [r] && [r][1..] == [];
    var next := db.(rows := db.rows - Cascade(db.rows, {r.id}));
    assert DeleteAll(db, [r]) == DeleteAll(next, [r][1..]);
  }

  /** Deleting the address record's zone is taken in a state that occurs, takes the
      delegation from a third zone, and leaves that zone's journal with a record it
      does not have. */
  lemma DeletionBreaksThirdZone(s: Site, t: Scene) returns (db: Db, q: Queue, mint: CommitId, now: Db)
    requires Strung(s, t)
    ensures Occurs(db) && Lawful(db) && Posted(s, t, db) && !Shallow(db.rows, t.f.id)
    ensures Taken(db, Deleted(Editing(t.f.id, mint + 1), t.f.id, q, mint), now)
    ensures t.p.id in now.zones && !LawAt(now, t.p.id)
  {
    db, mint := ChainOccurs(s, t);
    ChainElsewhere(s, t, db);
    q, now := OneDepartureBreaks(db, t.f.id, db.zones[t.c.id], EntryOf(s, t), mint, 1, t.p.id, PostOf(s, t));
  }

  /** Another zone has a row that goes with that one. */
  ghost predicate LosesThere(db: Db, f: ZoneId, c: Zone, e: Record, z: ZoneId, x: Record)
  {
    && z in db.zones && z != f && z != c.id && x.zone == z && x.id in db.rows && db.rows[x.id] == x
    && x.id in Cascade(db.rows, {e.id})
  }

  lemma DeletionTaken(db: Db, p: Intent, f: ZoneId, q: Queue, id: CommitId, n: nat) returns (now: Db)
    requires Integrity(db) && Deletable(db, p, f, q, id, n) && WriteQueue(db, q).Ok?
    ensures WriteBatch(db, DeleteBatch(p, db.zones[f], q, id)) == Ok(now) && Taken(db, Deleted(p, f, q, id), now)
  {
    DeletionAccepted(db, p, f, q, id, n);
    now := WriteBatch(db, DeleteBatch(p, db.zones[f], q, id)).value;
  }

  lemma OneDepartureBreaks(db: Db, f: ZoneId, c: Zone, e: Record, mint: CommitId, n: nat, z: ZoneId, x: Record) returns (q: Queue, now: Db)
    requires Began(db, mint, n) && AllElsewhere(db, f, c, e) && LosesThere(db, f, c, e, z, x)
    ensures Taken(db, Deleted(Editing(f, mint + 1), f, q, mint), now)
    ensures z in now.zones && !LawAt(now, z)
  {
    var p := Editing(f, mint + 1);
    q := OneLeaves(c, e);
    OneDeparts(db, f, c, e, mint, n);
    now := DeletionTaken(db, p, f, q, mint, n);
    DepartureLoses(db, f, c, e, mint, z, x, DeleteBatch(p, db.zones[f], q, mint), now);
  }

  lemma Unrecorded(f: Zone, c: Zone, e: Record, mint: CommitId, z: ZoneId)
    requires z != f.id && z != c.id
    ensures OneLeaves(c, e).Proper() && Of(DeleteBatch(Editing(f.id, mint + 1), f, OneLeaves(c, e), mint).commits, z) == []
  {
    var p, q := Editing(f.id, mint + 1), OneLeaves(c, e);
    var lead := DeleteCommit(p.meta, f, mint);
    OneZoneGathers(c, NO_CHANGES.Remove(e));
    var id := OwnCommit(p, q, z);
    OfConcat([lead], Planned(p, q, |q.order|), z);
    OneOf(lead, z);
  }

  /** What the batch leaves: fewer rows, and no commit of a zone it has none of. */
  lemma DroppedLeaves(db: Db, b: Batch, f: ZoneId, z: ZoneId, rows: Rows, now: Db)
    requires Integrity(db) && b.ops == [DeleteOp(f)] && WriteBatch(db, b) == Ok(now) && WriteQueue(db, b.queue) == Ok(db.(rows := rows))
    requires z in db.zones && z != f && Of(b.commits, z) == []
    ensures z in now.zones && Of(now.commits, z) == Of(db.commits, z)
    ensures forall id :: id in now.rows ==> id in rows && now.rows[id] == rows[id]
  {
    var carried, recorded := DeleteParts(db, b, f);
    CommitsRecorded(carried, b, b.commits);
    OfConcat(db.commits, b.commits, z);
  }

  lemma LosingBreaks(db: Db, now: Db, z: ZoneId, x: Record)
    requires Integrity(db) && z in db.zones && LawAt(db, z) && z in now.zones && Of(now.commits, z) == Of(db.commits, z)
    requires x.zone == z && x.id in db.rows && db.rows[x.id] == x && x.id !in now.rows
    requires forall id :: id in now.rows ==> id in db.rows && now.rows[id] == db.rows[id]
    ensures !LawAt(now, z)
  {
    GoneFrom(db.rows, now.rows, z, x);
    UnrecordedBreaksLaw(db, now, z, KeyOf(x));
  }

  lemma DepartureLoses(db: Db, f: ZoneId, c: Zone, e: Record, mint: CommitId, z: ZoneId, x: Record, b: Batch, now: Db)
    requires Lawful(db) && AllElsewhere(db, f, c, e) && LosesThere(db, f, c, e, z, x) && OneLeaves(c, e).Proper()
    requires b == DeleteBatch(Editing(f, mint + 1), db.zones[f], OneLeaves(c, e), mint) && WriteBatch(db, b) == Ok(now)
    requires WriteQueue(db, OneLeaves(c, e)) == Ok(db.(rows := db.rows - Cascade(db.rows, {e.id})))
    ensures z in now.zones && !LawAt(now, z)
  {
    Unrecorded(db.zones[f], c, e, mint, z);
    DroppedLeaves(db, b, f, z, db.rows - Cascade(db.rows, {e.id}), now);
    assert LawAt(db, z);
    LosingBreaks(db, now, z, x);
  }

  /** A row that went is not served. */
  lemma GoneFrom(was: Rows, now: Rows, z: ZoneId, x: Record)
    requires RowsOk(was) && UniqueKeys(was) && x.id in was && was[x.id] == x && x.zone == z
    requires x.id !in now && forall id :: id in now ==> id in was && now[id] == was[id]
    ensures KeyOf(x) in Served(was, z) && KeyOf(x) !in Served(now, z)
  {
    ServedAt(was, z, x.id);
    forall id | id in now && now[id].zone == z
      ensures KeyOf(now[id]) != KeyOf(x)
    {
      assert was[id].zone == was[x.id].zone;
    }
  }

  /** A journal that stands still while the zone does not is not true to it. */
  lemma UnrecordedBreaksLaw(was: Db, now: Db, z: ZoneId, k: Key)
    requires z in was.zones && LawAt(was, z) && z in now.zones && Of(now.commits, z) == Of(was.commits, z)
    requires k in Served(was.rows, z) && k !in Served(now.rows, z)
    ensures !LawAt(now, z)
  {
  }
}
