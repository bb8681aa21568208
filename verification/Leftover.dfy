/** An entry left behind while a zone's automation was off, and a pass that has to be
    made twice because of it. */
module Leftover {
  import opened Dns
  import opened Changes
  import opened Ordering
  import opened Store
  import opened Write
  import opened Carry
  import opened Batch
  import opened History
  import opened Upkeep
  import opened Runs
  import opened Queues
  import opened Reverse
  import opened Generation
  import opened Command
  import opened Reconcile
  import opened Again
  import opened Lifetime
  import opened Acceptance
  import opened Asking
  import opened Effects
  import opened Cases
  import opened Mishaps

  // ------------------------------------------------------------ the order of a listing

  /** Byte by byte, a shorter label first. */
  predicate LabelBefore(x: string, y: string)
  {
    y != "" && (x == "" || if x[0] == y[0] then LabelBefore(x[1..], y[1..]) else x[0] < y[0])
  }

  /** The canonical order of section 6.1 of RFC 4034: label by label from the right. */
  predicate NameBefore(a: Name, b: Name)
  {
    b != [] && (a == [] ||
      var x, y := a[|a| - 1], b[|b| - 1];
      if x == y then NameBefore(a[..|a| - 1], b[..|b| - 1]) else LabelBefore(x, y))
  }

  predicate ListedBefore(a: Record, b: Record)
  {
    || NameBefore(a.name, b.name)
    || (a.name == b.name && (if a.typ == b.typ then a.id < b.id else a.typ == A))
  }

  /** A zone's address records, in the order they are listed. */
  ghost predicate AddressesListed(rows: Rows, z: ZoneId, listed: seq<Record>)
  {
    && UniqueIds(listed) && Present(rows, listed)
    && (forall id :: id in rows ==> (id in Ids(listed) <==> rows[id].zone == z && (rows[id].typ == A || rows[id].typ == AAAA)))
    && forall i, j :: 0 <= i < j < |listed| ==> ListedBefore(listed[i], listed[j])
  }

  // ----------------------------------------------------------------------- the scene

  /** A zone and its reverse zone with their name servers; a record, where it is first and
      where it moves to; and another that is given the address it had. */
  datatype Swap = Swap(f: Zone, c: Zone, nf: Record, nc: Record, held: Record, moved: Record, heir: Record,
                       x: Address, y: Address, first: RecordId)

  ghost predicate Authored(t: Swap, r: Record, a: Address)
  {
    && r.zone == t.f.id && ValidRecord(r) && AddressOf(r) == Some(a) && Reverses(r) && r.managedKind.None? && Contains(t.f, r.name)
  }

  ghost predicate Swapped(s: Site, t: Swap)
  {
    && t.f.id != t.c.id && t.f.name != t.c.name && t.f.autoReverse.None? && ValidZone(t.f) && ValidZone(t.c)
    && Apex(t.f, t.nf) && Apex(t.c, t.nc) && t.nf.id < t.nc.id < t.held.id < t.heir.id < t.first
    && Authored(t, t.held, t.x) && Authored(t, t.heir, t.x) && Authored(t, t.moved, t.y) && t.moved == t.held.(data := t.moved.data)
    && t.x != t.y && t.x in s.near && t.y in s.near && s.rev == t.c.id && s.up.None?
    && s.owner(t.c.id, t.x) != s.owner(t.c.id, t.y) && t.heir.name != t.held.name
  }

  /** And the one that is given the address is listed before the one that had it. */
  ghost predicate Displaced(s: Site, t: Swap)
  {
    Swapped(s, t) && Foundable(NO_DATA, t.f, t.nf) && Foundable(NO_DATA, t.c, t.nc) && NameBefore(t.heir.name, t.held.name)
  }

  ghost function Left(s: Site, t: Swap): Record
  {
    Entry(t.c, s.owner(t.c.id, t.x), t.held, t.first)
  }

  function Bare(t: Swap): Rows
  {
    map[t.nf.id := t.nf, t.nc.id := t.nc]
  }

  /** The two zones, with this setting for the first, and these rows. */
  ghost predicate Shows(t: Swap, db: Db, auto: Option<bool>, rows: Rows)
  {
    && db.rows == rows && db.zones.Keys == {t.f.id, t.c.id}
    && Like(db.zones[t.f.id], t.f.(autoReverse := auto)) && Like(db.zones[t.c.id], t.c)
  }

  // ------------------------------------------------------------------ up to the address

  ghost predicate Paired(t: Swap, one: Db, two: Db)
  {
    one == Found(NO_DATA, t.c, t.nc, 0) && two == Found(one, t.f, t.nf, 1)
  }

  lemma TwoZonesOccur(s: Site, t: Swap, one: Db, two: Db)
    requires Displaced(s, t) && Paired(t, one, two)
    ensures Occurs(two) && Began(two, 2, 0)
  {
    StartsBegan();
    StartsOccurring();
    StillFoundable(NO_DATA, t.c, t.nc, 0, t.f, t.nf);
    FoundOccurs(s, NO_DATA, t.c, t.nc, 0, 0, one);
    FoundOccurs(s, one, t.f, t.nf, 1, 0, two);
  }

  lemma TwoZonesAre(s: Site, t: Swap, one: Db, two: Db)
    requires Displaced(s, t) && Paired(t, one, two)
    ensures two.rows == Bare(t) && two.zones == map[t.c.id := t.c, t.f.id := t.f]
  {
  }

  lemma AddressMayBeAuthored(s: Site, t: Swap, w: World)
    requires Swapped(s, t) && Integrity(w.db) && Acyclic(w.db.rows) && w == Around(s, w.db)
    requires w.db.rows == Bare(t) && w.db.zones == map[t.c.id := t.c, t.f.id := t.f]
    ensures Authorable(w, FirstWins, t.f, t.held, t.first)
  {
    AroundIsValid(s, w.db);
    assert forall id :: id in w.db.rows ==> w.db.rows[id].typ == NS;
    assert w.db.zones[t.f.id] == t.f;
  }

  lemma AddressBringsEntry(s: Site, t: Swap, w: World)
    requires Swapped(s, t) && RowsOk(w.db.rows) && w == Around(s, w.db)
    requires w.db.rows == Bare(t) && w.db.zones == map[t.c.id := t.c, t.f.id := t.f]
    ensures Brings(w, FirstWins, t.f, t.held, t.first) == [Left(s, t)]
  {
    assert forall id :: id in w.db.rows ==> w.db.rows[id].typ == NS;
    assert w.zoneFor(t.x) == Some(t.c);
    PutProper(NO_QUEUE, t.f, NO_CHANGES.Insert(t.held));
    assert Authoring(t.f, t.held).For(t.c.id) == NO_CHANGES;
    assert Delegator(w, t.c, t.x) == None;
  }

  lemma HeldEnters(s: Site, t: Swap, w: World)
    requires Swapped(s, t) && Integrity(w.db) && Acyclic(w.db.rows) && w == Around(s, w.db)
    requires w.db.rows == Bare(t) && w.db.zones == map[t.c.id := t.c, t.f.id := t.f]
    ensures Entering(w, FirstWins, t.f, t.held, t.first, [Left(s, t)])
  {
    AddressMayBeAuthored(s, t, w);
    AddressBringsEntry(s, t, w);
  }

  /** The servers, the address record and its entry. */
  ghost function WithEntry(s: Site, t: Swap): Rows
  {
    Bare(t)[t.held.id := t.held][t.first := Left(s, t)]
  }

  lemma BothThere(s: Site, t: Swap, rows: Rows)
    requires Swapped(s, t) && Extended(Bare(t), rows, [t.held] + [Left(s, t)])
    ensures rows == WithEntry(s, t)
  {
    var rs := [t.held] + [Left(s, t)];
    assert rs == [t.held, Left(s, t)];
    assert Ids(rs) == {t.held.id, t.first} by { assert rs[0].id in Ids(rs) && rs[1].id in Ids(rs); }
    assert rows[rs[0].id] == rs[0] && rows[rs[1].id] == rs[1];
  }

  lemma StillTwo(t: Swap, db: Db, q: Queue, now: Db, rows: Rows)
    requires db.zones == map[t.c.id := t.c, t.f.id := t.f] && MovedOn(db, q, now) && t.f.id != t.c.id && t.f.autoReverse.None?
    requires now.rows == rows
    ensures Shows(t, now, None, rows)
  {
  }

  lemma EntryOccurs(s: Site, t: Swap) returns (db: Db, mint: CommitId, n: nat)
    requires Displaced(s, t)
    ensures n < 2 && Occurs(db) && Began(db, mint, n) && Shows(t, db, None, WithEntry(s, t))
  {
    var one := Found(NO_DATA, t.c, t.nc, 0);
    var two := Found(one, t.f, t.nf, 1);
    TwoZonesOccur(s, t, one, two);
    TwoZonesAre(s, t, one, two);
    db, mint := EntryAdded(s, t, two, 2, 0);
    n := 1;
  }

  lemma EntryAdded(s: Site, t: Swap, two: Db, id: CommitId, n: nat) returns (db: Db, mint: CommitId)
    requires Swapped(s, t) && Occurs(two) && Began(two, id, n) && n < 10
    requires two.rows == Bare(t) && two.zones == map[t.c.id := t.c, t.f.id := t.f]
    ensures Occurs(db) && Began(db, mint, n + 1) && Shows(t, db, None, WithEntry(s, t))
  {
    var next;
    HeldEnters(s, t, Around(s, two));
    next, db, mint := EnteringOccurs(Around(s, two), FirstWins, t.f, t.held, t.first, [Left(s, t)], id, n);
    BothThere(s, t, db.rows);
    StillTwo(t, two, next, db, WithEntry(s, t));
  }

  // -------------------------------------------------------------- the setting, changed

  /** Settings that are valid, under the name the zone alone has, are taken. */
  lemma ResettleOccurs(db: Db, asked: Zone, id: CommitId, n: nat) returns (now: Db)
    requires Occurs(db) && Began(db, id, n) && n + 1 < SERIAL_SPACE - 1 && asked.id in db.zones
    requires ValidZone(asked) && FreeName(db.zones, asked) && asked.name == db.zones[asked.id].name
    ensures Occurs(now) && Began(now, id + 1, n + 1)
    ensures now.rows == db.rows && now.zones == db.zones[asked.id := Advanced(db.zones[asked.id], asked)]
  {
    var m := Meta(FromApi, "", "");
    now := ResettleKept(db, m, asked, id, n);
    TakenOccurs(db, Resettled(m, asked, id), now);
  }

  lemma ResettleKept(db: Db, m: Meta, asked: Zone, id: CommitId, n: nat) returns (now: Db)
    requires Began(db, id, n) && n + 1 < SERIAL_SPACE - 1 && asked.id in db.zones && ValidZone(asked) && FreeName(db.zones, asked)
    ensures WriteBatch(db, UpdateBatch(m, db.zones[asked.id], asked, id)) == Ok(now) && Began(now, id + 1, n + 1)
    ensures now.rows == db.rows && now.zones == db.zones[asked.id := Advanced(db.zones[asked.id], asked)]
  {
    ResettleAccepted(db, m, asked, id, n);
    now := WriteBatch(db, UpdateBatch(m, db.zones[asked.id], asked, id)).value;
    ResettleLeavesRoom(db, m, asked, id, n, now);
    UpdateKeepsLaw(db, m, asked, id);
  }

  lemma Switched(s: Site, t: Swap, db: Db, auto: Option<bool>, to: bool, rows: Rows, mint: CommitId, n: nat) returns (now: Db)
    requires Swapped(s, t) && Occurs(db) && Began(db, mint, n) && n < 10 && Shows(t, db, auto, rows)
    ensures Occurs(now) && Began(now, mint + 1, n + 1) && Shows(t, now, Some(to), rows)
  {
    var asked := db.zones[t.f.id].(autoReverse := Some(to));
    MaySwitch(s, t, db, auto, asked, rows);
    now := ResettleOccurs(db, asked, mint, n);
    SwitchShows(t, db, auto, to, rows, asked, now);
  }

  lemma MaySwitch(s: Site, t: Swap, db: Db, auto: Option<bool>, asked: Zone, rows: Rows)
    requires Swapped(s, t) && Shows(t, db, auto, rows) && asked == db.zones[t.f.id].(autoReverse := asked.autoReverse)
    ensures asked.id == t.f.id && ValidZone(asked) && FreeName(db.zones, asked) && asked.name == db.zones[asked.id].name
  {
  }

  lemma SwitchShows(t: Swap, db: Db, auto: Option<bool>, to: bool, rows: Rows, asked: Zone, now: Db)
    requires Shows(t, db, auto, rows) && t.f.id != t.c.id && asked == db.zones[t.f.id].(autoReverse := Some(to)) && asked.id == t.f.id
    requires now.rows == db.rows && now.zones == db.zones[asked.id := Advanced(db.zones[asked.id], asked)]
    ensures Shows(t, now, Some(to), rows)
  {
  }

  // -------------------------------------------------- what is done while it is off

  lemma MovedShows(t: Swap, db: Db, auto: Option<bool>, was: Rows, now: Db, rows: Rows)
    requires Shows(t, db, auto, was) && t.f.id != t.c.id && now.zones == db.zones[t.f.id := Acceptance.Moved(db.zones[t.f.id])] && now.rows == rows
    ensures Shows(t, now, auto, rows)
  {
  }

  lemma MayMove(s: Site, t: Swap, db: Db)
    requires Swapped(s, t) && Shows(t, db, Some(false), WithEntry(s, t))
    ensures UpdateRecord(db, t.moved).Ok? && KeyOf(t.moved) != KeyOf(t.held)
  {
  }

  lemma HeldMoves(s: Site, t: Swap, db: Db)
    requires Swapped(s, t) && Integrity(db) && Shows(t, db, Some(false), WithEntry(s, t))
    ensures Updating(Around(s, db), db.zones[t.f.id], Amend(t.held.id, t.moved), t.held, t.moved, NO_CHANGES.Replace(t.held, t.moved))
  {
    var w, f := Around(s, db), db.zones[t.f.id];
    MayMove(s, t, db);
    OneUpdated(db, f, t.held, t.moved);
    OneUpdateIsPlain(w, f.id, t.held, t.moved);
    AmendResolved(db, f, t.held, t.moved, SetsOf(db.rows, f.id));
  }

  ghost function WithMoved(s: Site, t: Swap): Rows
  {
    WithEntry(s, t)[t.held.id := t.moved]
  }

  lemma HeldMoved(s: Site, t: Swap, db: Db, mint: CommitId, n: nat) returns (now: Db)
    requires Swapped(s, t) && Occurs(db) && Began(db, mint, n) && n < 10 && Shows(t, db, Some(false), WithEntry(s, t))
    ensures Occurs(now) && Began(now, mint + 1, n + 1) && Shows(t, now, Some(false), WithMoved(s, t))
  {
    var f := db.zones[t.f.id];
    HeldMoves(s, t, db);
    now := UpdatedAlone(Around(s, db), f, t.held, t.moved, WithMoved(s, t), mint, n);
    MovedShows(t, db, Some(false), WithEntry(s, t), now, WithMoved(s, t));
  }

  lemma UpdatedAlone(w: World, f: Zone, held: Record, moved: Record, rows: Rows, mint: CommitId, n: nat) returns (now: Db)
    requires Occurs(w.db) && Began(w.db, mint, n) && n < 10 && rows == w.db.rows[held.id := moved]
    requires Updating(w, f, Amend(held.id, moved), held, moved, NO_CHANGES.Replace(held, moved))
    ensures Occurs(now) && Began(now, mint + 1, n + 1) && now.rows == rows && now.zones == w.db.zones[f.id := Acceptance.Moved(f)]
  {
    now := UpdateOccurs(w, f, Amend(held.id, moved), held, moved, NO_CHANGES.Replace(held, moved), mint, n);
  }

  ghost function Both(s: Site, t: Swap): Rows
  {
    WithMoved(s, t)[t.heir.id := t.heir]
  }

  /** With the automation off, a record may be authored that calls for nothing. */
  lemma AuthoredAlone(w: World, z: Zone, a: Record, mint: CommitId, n: nat) returns (now: Db)
    requires Occurs(w.db) && Began(w.db, mint, n) && n + 1 < SERIAL_SPACE - 1 && w.Holds(z) && !w.Automates(z.id)
    requires AddableOne(w.db, a) && ValidOp(z.id, Author(a)) && Contains(z, a.name) && a.managedBy.None?
    ensures Occurs(now) && Began(now, mint + 1, n + 1)
    ensures now.rows == w.db.rows[a.id := a] && now.zones == w.db.zones[z.id := Acceptance.Moved(z)]
  {
    var c := NO_CHANGES.Insert(a);
    OneAddition(z, a);
    OneInserted(w.db, z, a);
    now := PlainTaken(w, FirstWins, z, Author(a), c, mint, n, w.db.rows[a.id := a]);
    TakenOccurs(w.db, RequestOf(w, FirstWins, z, Author(a), mint, Put(NO_QUEUE, z, c)), now);
  }

  lemma HeirAddable(s: Site, t: Swap, db: Db)
    requires Swapped(s, t) && Shows(t, db, Some(false), WithMoved(s, t))
    ensures AddableOne(db, t.heir)
  {
  }

  lemma HeirAuthored(s: Site, t: Swap, db: Db, mint: CommitId, n: nat) returns (now: Db)
    requires Swapped(s, t) && Occurs(db) && Began(db, mint, n) && n < 10 && Shows(t, db, Some(false), WithMoved(s, t))
    ensures Occurs(now) && Began(now, mint + 1, n + 1) && Shows(t, now, Some(false), Both(s, t))
  {
    HeirAddable(s, t, db);
    now := AuthoredAlone(Around(s, db), db.zones[t.f.id], t.heir, mint, n);
    MovedShows(t, db, Some(false), WithMoved(s, t), now, Both(s, t));
  }

  /** A run from nothing reaches an address record and its entry, in a zone whose
      automation has been switched off. */
  lemma OffOccurs(s: Site, t: Swap) returns (db: Db, mint: CommitId, n: nat)
    requires Displaced(s, t)
    ensures n < 3 && Occurs(db) && Began(db, mint, n) && Shows(t, db, Some(false), WithEntry(s, t))
  {
    var one;
    one, mint, n := EntryOccurs(s, t);
    db := Switched(s, t, one, None, false, WithEntry(s, t), mint, n);
    mint, n := mint + 1, n + 1;
  }

  lemma MovedOccurs(s: Site, t: Swap) returns (db: Db, mint: CommitId, n: nat)
    requires Displaced(s, t)
    ensures n < 4 && Occurs(db) && Began(db, mint, n) && Shows(t, db, Some(false), WithMoved(s, t))
  {
    var off;
    off, mint, n := OffOccurs(s, t);
    db := HeldMoved(s, t, off, mint, n);
    mint, n := mint + 1, n + 1;
  }

  lemma SwapOccurs(s: Site, t: Swap) returns (db: Db, mint: CommitId, n: nat)
    requires Displaced(s, t)
    ensures n < 5 && Occurs(db) && Began(db, mint, n) && Shows(t, db, Some(false), Both(s, t))
  {
    var one;
    one, mint, n := MovedOccurs(s, t);
    db := HeirAuthored(s, t, one, mint, n);
    mint, n := mint + 1, n + 1;
  }

  /** And then an address record at its new address, another at the old one, and the
      entry the first was given there, with the automation on again. */
  lemma LeftoverOccurs(s: Site, t: Swap) returns (db: Db, mint: CommitId, n: nat)
    requires Displaced(s, t)
    ensures n < 6 && Occurs(db) && Began(db, mint, n) && Shows(t, db, Some(true), Both(s, t))
  {
    var off;
    off, mint, n := SwapOccurs(s, t);
    db := Switched(s, t, off, Some(false), true, Both(s, t), mint, n);
    mint, n := mint + 1, n + 1;
  }

  // ------------------------------------------------------------------------ the pass

  /** An entry at the spot of one record that hangs off another, and no other entry. */
  ghost predicate Astray(w: World, heir: Record, moved: Record, e: Record, here: Spot, there: Spot)
  {
    && e.id in w.db.rows && w.db.rows[e.id] == e && SitsAt(e, here) && e.managedBy == Some(moved.id)
    && here != there && heir.id != moved.id && e.id != moved.id && e.id != heir.id
    && (forall id :: id in w.db.rows && id != e.id ==> w.db.rows[id].typ != PTR && w.db.rows[id].managedBy.None?)
    && SpotOf(w, FirstWins, heir) == Place(w, heir) == Some(here) && SpotOf(w, FirstWins, moved) == Place(w, moved) == Some(there)
  }

  lemma AstrayHolders(w: World, heir: Record, moved: Record, e: Record, here: Spot, there: Spot)
    requires Astray(w, heir, moved, e, here, there)
    ensures Holders(w.db.rows, here) == {e.id} && Holders(w.db.rows, there) == {}
  {
  }

  lemma AstrayStale(w: World, heir: Record, moved: Record, e: Record, here: Spot, there: Spot)
    requires Astray(w, heir, moved, e, here, there)
    ensures Stale(w, heir) == {} && Stale(w, moved) == {e.id}
    ensures Cascade(w.db.rows, {}) == {} && Cascade(w.db.rows, {e.id}) == {e.id}
  {
    CascadeIsLeast(w.db.rows, {}, {});
    CascadeIsLeast(w.db.rows, {e.id}, {e.id});
    assert Below(w.db.rows, {heir.id}) == {} && Below(w.db.rows, {moved.id}) == {e.id};
  }

  lemma AstrayOvertaken(w: World, heir: Record, moved: Record, e: Record, here: Spot, there: Spot)
    requires Astray(w, heir, moved, e, here, there)
    ensures var turns := [heir, moved];
            Overtaken(w, turns, 0) == Overtaken(w, turns, 1) == {} && Overtaken(w, turns, 2) == {e.id}
  {
    AstrayStale(w, heir, moved, e, here, there);
  }

  /** The entry keeps the first record from its spot, and makes way only for the second. */
  lemma AstrayUnsettled(w: World, heir: Record, moved: Record, e: Record, here: Spot, there: Spot)
    requires Astray(w, heir, moved, e, here, there)
    ensures !Settles(w, FirstWins, [heir, moved])
  {
    var turns := [heir, moved];
    AstrayHolders(w, heir, moved, e, here, there);
    AstrayOvertaken(w, heir, moved, e, here, there);
    assert !Opens(w, FirstWins, turns, 0, here) && !Opens(w, FirstWins, turns, 1, here);
    assert !SettlesAt(w, FirstWins, turns, SpotOf(w, FirstWins, turns[0]));
  }

  lemma FirstTurn(w: World, heir: Record, moved: Record, e: Record, here: Spot, there: Spot, first: RecordId)
    requires w.Valid() && Astray(w, heir, moved, e, here, there) && Sources(w.db.rows, [heir, moved])
    requires forall id :: id in w.db.rows ==> id < first
    ensures Stage(w, FirstWins, [heir, moved], 1, Overtaken(w, [heir, moved], 1), first, NO_QUEUE, first + 2)
  {
    var turns := [heir, moved];
    AstrayHolders(w, heir, moved, e, here, there);
    AstrayStale(w, heir, moved, e, here, there);
    AstrayOvertaken(w, heir, moved, e, here, there);
    StartsEmpty(w, FirstWins, turns, first);
    assert Ids([]) == {};
    Superseded(w, FirstWins, turns, 0, first, NO_QUEUE, first, [], NO_QUEUE);
    Generated(w, FirstWins, turns, 0, first, NO_QUEUE, first);
    HeldIff(w.db.rows, NO_QUEUE, {}, here);
    GenerateIs(w, FirstWins, NO_QUEUE, heir, first);
  }

  /** Where the second record is sent, with no zone above to point there. */
  ghost predicate Sent(w: World, moved: Record, c: Zone, y: Address, there: Spot)
  {
    && AddressOf(moved) == Some(y) && w.zoneFor(y) == Some(c) && w.Holds(c) && there == Spot(c.id, w.ownerIn(c.id, y), None)
    && Delegator(w, c, y) == None
  }

  function Sending(c: Zone, e: Record, there: Spot, moved: Record, id: RecordId): Changes
  {
    NO_CHANGES.Remove(e).Insert(Entry(c, there.name, moved, id))
  }

  lemma SecondRetires(w: World, heir: Record, moved: Record, e: Record, here: Spot, there: Spot, first: RecordId, mid: Queue)
    requires w.Valid() && Astray(w, heir, moved, e, here, there) && Sources(w.db.rows, [heir, moved])
    requires Stage(w, FirstWins, [heir, moved], 1, Overtaken(w, [heir, moved], 1), first, NO_QUEUE, first + 2)
    requires mid == RemoveEach(w.db, NO_QUEUE, [e])
    ensures Stage(w, FirstWins, [heir, moved], 1, Overtaken(w, [heir, moved], 2), first, mid, first + 2)
  {
    AstrayStale(w, heir, moved, e, here, there);
    OneId(e);
    Superseded(w, FirstWins, [heir, moved], 1, first, NO_QUEUE, first + 2, [e], mid);
  }

  lemma SecondIsFree(w: World, heir: Record, moved: Record, e: Record, here: Spot, there: Spot, first: RecordId, mid: Queue)
    requires w.Valid() && Astray(w, heir, moved, e, here, there)
    requires Stage(w, FirstWins, [heir, moved], 1, Overtaken(w, [heir, moved], 2), first, mid, first + 2)
    ensures !SpotHeld(w.db.rows, mid, there)
  {
    AstrayHolders(w, heir, moved, e, here, there);
    HeldIff(w.db.rows, mid, Overtaken(w, [heir, moved], 2), there);
    assert !Filled(w, FirstWins, [heir, moved], 1, there);
  }

  lemma SecondGives(w: World, moved: Record, e: Record, there: Spot, c: Zone, y: Address, id: RecordId, mid: Queue)
    requires Sent(w, moved, c, y, there) && SpotOf(w, FirstWins, moved) == Some(there) && mid == Put(NO_QUEUE, c, NO_CHANGES.Remove(e))
    requires !SpotHeld(w.db.rows, mid, there)
    ensures Generate(w, FirstWins, mid, moved, id) == Ok(Put(NO_QUEUE, c, Sending(c, e, there, moved, id)))
  {
    GenerateIs(w, FirstWins, mid, moved, id);
    PutTwice(c, NO_CHANGES.Remove(e), Sending(c, e, there, moved, id));
  }

  lemma PutTwice(z: Zone, c: Changes, d: Changes)
    ensures Put(Put(NO_QUEUE, z, c), z, d) == Put(NO_QUEUE, z, d) && Put(NO_QUEUE, z, c).For(z.id) == c
  {
    PutProper(NO_QUEUE, z, c);
  }

  lemma LastTurn(w: World, turns: seq<Record>, first: RecordId, mid: Queue, mint: RecordId, next: Queue, last: RecordId)
    requires w.Valid() && |turns| == 2 && UniqueIds(turns) && Stage(w, FirstWins, turns, 1, Overtaken(w, turns, 2), first, mid, mint)
    requires Generate(w, FirstWins, mid, turns[1], mint) == Ok(next) && last == mint + 2
    ensures WholePass(w, FirstWins, turns, first, next, last)
  {
    Generated(w, FirstWins, turns, 1, first, mid, mint);
  }

  lemma SecondTurn(w: World, heir: Record, moved: Record, e: Record, here: Spot, there: Spot, c: Zone, y: Address,
                   first: RecordId, mid: Queue, q: Queue, last: RecordId)
    requires w.Valid() && Astray(w, heir, moved, e, here, there) && Sent(w, moved, c, y, there)
    requires mid == Put(NO_QUEUE, c, NO_CHANGES.Remove(e)) && q == Put(NO_QUEUE, c, Sending(c, e, there, moved, first + 2))
    requires Stage(w, FirstWins, [heir, moved], 1, Overtaken(w, [heir, moved], 2), first, mid, first + 2) && last == first + 4
    ensures WholePass(w, FirstWins, [heir, moved], first, q, last)
  {
    SecondIsFree(w, heir, moved, e, here, there, first, mid);
    SecondGenerates(w, heir, moved, e, here, there, c, y, first + 2, mid, q);
    LastTurn(w, [heir, moved], first, mid, first + 2, q, last);
  }

  lemma SecondGenerates(w: World, heir: Record, moved: Record, e: Record, here: Spot, there: Spot, c: Zone, y: Address,
                        id: RecordId, mid: Queue, q: Queue)
    requires Astray(w, heir, moved, e, here, there) && Sent(w, moved, c, y, there) && !SpotHeld(w.db.rows, mid, there)
    requires mid == Put(NO_QUEUE, c, NO_CHANGES.Remove(e)) && q == Put(NO_QUEUE, c, Sending(c, e, there, moved, id))
    ensures UniqueIds([heir, moved]) && Generate(w, FirstWins, mid, [heir, moved][1], id) == Ok(q)
  {
    SecondGives(w, moved, e, there, c, y, id, mid);
  }

  /** So the pass gives the second its entry, and leaves the first without. */
  lemma AstrayPass(w: World, heir: Record, moved: Record, e: Record, here: Spot, there: Spot, c: Zone, y: Address, first: RecordId)
    requires w.Valid() && Astray(w, heir, moved, e, here, there) && Sources(w.db.rows, [heir, moved])
    requires Sent(w, moved, c, y, there) && e.zone == c.id && forall id :: id in w.db.rows ==> id < first
    ensures WholePass(w, FirstWins, [heir, moved], first, Put(NO_QUEUE, c, Sending(c, e, there, moved, first + 2)), first + 4)
  {
    var mid := RemoveEach(w.db, NO_QUEUE, [e]);
    OneOut(w.db, c, e);
    FirstTurn(w, heir, moved, e, here, there, first);
    SecondRetires(w, heir, moved, e, here, there, first, mid);
    SecondTurn(w, heir, moved, e, here, there, c, y, first, mid, Put(NO_QUEUE, c, Sending(c, e, there, moved, first + 2)), first + 4);
  }

  lemma OneId(e: Record)
    ensures Ids([e]) == {e.id}
  {
    assert [e][0].id in Ids([e]);
  }

  lemma OneOut(db: Db, c: Zone, e: Record)
    requires e.zone == c.id && c.id in db.zones && db.zones[c.id] == c
    ensures RemoveEach(db, NO_QUEUE, [e]) == Put(NO_QUEUE, c, NO_CHANGES.Remove(e))
  {
    assert [e][..0] == [];
  }

  // ------------------------------------------------------------------------ its batch

  lemma OneReplaced(db: Db, z: Zone, e: Record, r: Record)
    requires e.id in db.rows && db.rows[e.id] == e && Cascade(db.rows, {e.id}) == {e.id}
    requires AddableOne(db.(rows := db.rows - {e.id}), r) && r.managedBy.Some? && r.managedBy.value in db.rows - {e.id}
    ensures WriteQueue(db, Put(NO_QUEUE, z, NO_CHANGES.Remove(e).Insert(r))) == Ok(db.(rows := (db.rows - {e.id})[r.id := r]))
  {
    var c, left := NO_CHANGES.Remove(e).Insert(r), db.(rows := db.rows - {e.id});
    OneZoneGathers(z, c);
    OneOrdered(e, true);
    OneOrdered(r, false);
    assert c.deletes == [e] && [e][1..] == [] && c.updates == [] && c.inserts == [r] && [r][1..] == [];
    assert DeleteAll(db, [e]) == DeleteAll(left, [e][1..]);
    assert InsertAll(left, [r]) == InsertAll(left.(rows := left.rows[r.id := r]), [r][1..]);
  }

  // ---------------------------------------------------------- twice to finish once

  ghost predicate Ready(s: Site, t: Swap, w: World)
  {
    RowsOk(w.db.rows) && Swapped(s, t) && w == Around(s, w.db) && Shows(t, w.db, Some(true), Both(s, t))
  }

  ghost function Here(s: Site, t: Swap): Spot
  {
    Spot(t.c.id, s.owner(t.c.id, t.x), None)
  }

  ghost function There(s: Site, t: Swap): Spot
  {
    Spot(t.c.id, s.owner(t.c.id, t.y), None)
  }

  lemma SpotsAre(s: Site, t: Swap, w: World)
    requires Ready(s, t, w)
    ensures SpotOf(w, FirstWins, t.heir) == Place(w, t.heir) == Some(Here(s, t)) && SpotOf(w, FirstWins, t.moved) == Place(w, t.moved) == Some(There(s, t))
    ensures Sent(w, t.moved, w.db.zones[t.c.id], t.y, There(s, t))
  {
    assert w.zoneFor(t.x) == w.zoneFor(t.y) == Some(w.db.zones[t.c.id]);
  }

  lemma ReadyRows(s: Site, t: Swap, rows: Rows)
    requires Swapped(s, t) && rows == Both(s, t)
    ensures t.first in rows && rows[t.first] == Left(s, t) && Sources(rows, [t.heir, t.moved])
    ensures forall id :: id in rows ==> id <= t.first && (id != t.first ==> rows[id].typ != PTR && rows[id].managedBy.None?)
  {
  }

  lemma ReadyAstray(s: Site, t: Swap, w: World)
    requires Ready(s, t, w)
    ensures Astray(w, t.heir, t.moved, Left(s, t), Here(s, t), There(s, t))
  {
    SpotsAre(s, t, w);
    ReadyRows(s, t, w.db.rows);
  }

  ghost function PassOf(s: Site, t: Swap, c: Zone): Queue
  {
    Put(NO_QUEUE, c, Sending(c, Left(s, t), There(s, t), t.moved, t.first + 3))
  }

  /** What the pass is built from. */
  ghost predicate Given(w: World, t: Swap, e: Record, here: Spot, there: Spot, c: Zone)
  {
    && Astray(w, t.heir, t.moved, e, here, there) && Sources(w.db.rows, [t.heir, t.moved])
    && Sent(w, t.moved, c, t.y, there) && e.zone == c.id && forall id :: id in w.db.rows ==> id < t.first + 1
  }

  lemma ReadyGiven(s: Site, t: Swap, w: World, c: Zone)
    requires Ready(s, t, w) && c == w.db.zones[t.c.id] && c.id == t.c.id
    ensures Given(w, t, Left(s, t), Here(s, t), There(s, t), c)
  {
    SpotsAre(s, t, w);
    ReadyRows(s, t, w.db.rows);
    ReadyAstray(s, t, w);
  }

  lemma GivenPass(w: World, t: Swap, e: Record, here: Spot, there: Spot, c: Zone, q: Queue)
    requires w.Valid() && Given(w, t, e, here, there, c) && q == Put(NO_QUEUE, c, Sending(c, e, there, t.moved, t.first + 3))
    ensures WholePass(w, FirstWins, [t.heir, t.moved], t.first + 1, q, t.first + 5)
  {
    AstrayPass(w, t.heir, t.moved, e, here, there, c, t.y, t.first + 1);
  }

  lemma ReadyPass(s: Site, t: Swap, w: World, c: Zone, q: Queue)
    requires Ready(s, t, w) && w.Valid() && c == w.db.zones[t.c.id] && q == PassOf(s, t, c)
    ensures WholePass(w, FirstWins, [t.heir, t.moved], t.first + 1, q, t.first + 5)
  {
    ReadyGiven(s, t, w, c);
    GivenPass(w, t, Left(s, t), Here(s, t), There(s, t), c, q);
  }

  lemma GivenIsAddable(s: Site, t: Swap, db: Db, r: Record)
    requires Swapped(s, t) && Integrity(db) && Shows(t, db, Some(true), Both(s, t))
    requires r == Entry(db.zones[t.c.id], There(s, t).name, t.moved, t.first + 3)
    ensures AddableOne(db.(rows := db.rows - {t.first}), r) && t.moved.id in db.rows - {t.first}
  {
    ReadyRows(s, t, db.rows);
  }

  ghost function WithGiven(s: Site, t: Swap, c: Zone): Rows
  {
    (Both(s, t) - {t.first})[t.first + 3 := Entry(c, There(s, t).name, t.moved, t.first + 3)]
  }

  ghost predicate Replaceable(w: World, heir: Record, moved: Record, e: Record, here: Spot, there: Spot, r: Record)
  {
    && Astray(w, heir, moved, e, here, there) && r.managedBy == Some(moved.id)
    && AddableOne(w.db.(rows := w.db.rows - {e.id}), r) && moved.id in w.db.rows - {e.id}
  }

  lemma ReadyReplaceable(s: Site, t: Swap, w: World, c: Zone, r: Record)
    requires Ready(s, t, w) && Integrity(w.db) && c == w.db.zones[t.c.id] && r == Entry(c, There(s, t).name, t.moved, t.first + 3)
    ensures Replaceable(w, t.heir, t.moved, Left(s, t), Here(s, t), There(s, t), r)
  {
    ReadyAstray(s, t, w);
    GivenIsAddable(s, t, w.db, r);
  }

  lemma ReplaceableWritten(w: World, heir: Record, moved: Record, e: Record, here: Spot, there: Spot, c: Zone, r: Record, q: Queue, rows: Rows)
    requires Replaceable(w, heir, moved, e, here, there, r) && q == Put(NO_QUEUE, c, NO_CHANGES.Remove(e).Insert(r))
    requires rows == (w.db.rows - {e.id})[r.id := r]
    ensures WriteQueue(w.db, q).Ok? && WriteQueue(w.db, q).value.rows == rows
  {
    AstrayStale(w, heir, moved, e, here, there);
    OneReplaced(w.db, c, e, r);
  }

  lemma ReadyPieces(s: Site, t: Swap, w: World, c: Zone, q: Queue, rows: Rows) returns (e: Record, here: Spot, there: Spot, r: Record)
    requires Ready(s, t, w) && Integrity(w.db) && c == w.db.zones[t.c.id] && q == PassOf(s, t, c) && rows == WithGiven(s, t, c)
    ensures Replaceable(w, t.heir, t.moved, e, here, there, r)
    ensures q == Put(NO_QUEUE, c, NO_CHANGES.Remove(e).Insert(r)) && rows == (w.db.rows - {e.id})[r.id := r]
  {
    e, here, there := Left(s, t), Here(s, t), There(s, t);
    r := Entry(c, there.name, t.moved, t.first + 3);
    ReadyReplaceable(s, t, w, c, r);
  }

  lemma ReadyWritten(s: Site, t: Swap, w: World, c: Zone, q: Queue, rows: Rows)
    requires Ready(s, t, w) && Integrity(w.db) && c == w.db.zones[t.c.id] && q == PassOf(s, t, c) && rows == WithGiven(s, t, c)
    ensures WriteQueue(w.db, q).Ok? && WriteQueue(w.db, q).value.rows == rows
  {
    var e, here, there, r := ReadyPieces(s, t, w, c, q, rows);
    ReplaceableWritten(w, t.heir, t.moved, e, here, there, c, r, q, rows);
  }

  lemma PassKeepsSoa(s: Site, t: Swap, c: Zone)
    ensures KeepsSoa(PassOf(s, t, c))
  {
    PutProper(NO_QUEUE, c, Sending(c, Left(s, t), There(s, t), t.moved, t.first + 3));
  }

  lemma ReadyTaken(s: Site, t: Swap, w: World, c: Zone, mint: CommitId, n: nat) returns (now: Db)
    requires Ready(s, t, w) && w.Valid() && Room(w.db, mint, n) && n < 10 && c == w.db.zones[t.c.id]
    ensures PassOf(s, t, c).Proper() && WriteBatch(w.db, EditBatch(Editing(t.f.id, mint), PassOf(s, t, c))) == Ok(now)
    ensures now.zones.Keys == w.db.zones.Keys && Integrity(now) && now.rows == WithGiven(s, t, c)
  {
    var p, q := Editing(t.f.id, mint), PassOf(s, t, c);
    ReadyPass(s, t, w, c, q);
    ReadyWritten(s, t, w, c, q, WithGiven(s, t, c));
    PassKeepsSoa(s, t, c);
    EditAccepted(w.db, p, q, n, WriteQueue(w.db, q).value);
    now := WriteBatch(w.db, EditBatch(p, q)).value;
    EditMovesOn(w.db, p, q, n, now);
  }

  lemma StillPlaced(s: Site, t: Swap, w: World, later: World)
    requires Ready(s, t, w) && RowsOk(later.db.rows) && later == Around(s, later.db) && later.db.zones.Keys == w.db.zones.Keys
    requires Integrity(w.db) && Integrity(later.db)
    ensures forall r :: r in [t.heir, t.moved] ==> Place(later, r) == Place(w, r)
  {
    assert later.zoneFor(t.x) == Some(later.db.zones[t.c.id]) && later.zoneFor(t.y) == Some(later.db.zones[t.c.id]);
    SpotsAre(s, t, w);
  }

  lemma ReadyUnsettled(s: Site, t: Swap, w: World)
    requires Ready(s, t, w)
    ensures Sources(w.db.rows, [t.heir, t.moved]) && !Settles(w, FirstWins, [t.heir, t.moved])
  {
    ReadyRows(s, t, w.db.rows);
    ReadyAstray(s, t, w);
    AstrayUnsettled(w, t.heir, t.moved, Left(s, t), Here(s, t), There(s, t));
  }

  lemma SecondFinds(s: Site, t: Swap, w: World, c: Zone, p: Intent, q: Queue, later: World, again: RecordId, second: Queue, last: RecordId)
    requires Ready(s, t, w) && w.Valid() && c == w.db.zones[t.c.id] && q == PassOf(s, t, c) && q.Proper()
    requires WriteBatch(w.db, EditBatch(p, q)) == Ok(later.db)
    requires forall r :: r in [t.heir, t.moved] ==> Place(later, r) == Place(w, r)
    requires WholePass(later, FirstWins, [t.heir, t.moved], again, second, last)
    ensures !second.Empty()
  {
    ReadyPass(s, t, w, c, q);
    ReadyUnsettled(s, t, w);
    SecondPassEmptyIff(w, FirstWins, [t.heir, t.moved], t.first + 1, q, t.first + 5, p, later, again, second, last);
  }

  lemma TurnsAreListed(s: Site, t: Swap, c: Zone)
    requires Swapped(s, t) && NameBefore(t.heir.name, t.held.name)
    ensures AddressesListed(Both(s, t), t.f.id, [t.heir, t.moved])
    ensures c.id == t.c.id ==> AddressesListed(WithGiven(s, t, c), t.f.id, [t.heir, t.moved])
  {
    OnlyTurns(s, t, Both(s, t));
    if c.id == t.c.id { OnlyTurns(s, t, WithGiven(s, t, c)); }
  }

  lemma OnlyTurns(s: Site, t: Swap, rows: Rows)
    requires Swapped(s, t) && NameBefore(t.heir.name, t.held.name)
    requires t.heir.id in rows && rows[t.heir.id] == t.heir && t.moved.id in rows && rows[t.moved.id] == t.moved
    requires forall id :: id in rows && id != t.heir.id && id != t.moved.id ==> rows[id].typ != A && rows[id].typ != AAAA
    ensures AddressesListed(rows, t.f.id, [t.heir, t.moved])
  {
    var turns := [t.heir, t.moved];
    assert Ids(turns) == {t.heir.id, t.moved.id} by { assert turns[0].id in Ids(turns) && turns[1].id in Ids(turns); }
  }

  /** A pass the store accepts. */
  ghost predicate Refills(w: World, p: Intent, sources: seq<Record>, first: RecordId, q: Queue, mint: RecordId, now: Db)
  {
    && p.kind == Edit && Sources(w.db.rows, sources) && WholePass(w, FirstWins, sources, first, q, mint)
    && (forall s :: s in sources ==> w.Automates(s.zone)) && WriteBatch(w.db, EditBatch(p, q)) == Ok(now)
  }

  lemma RefilledTaken(w: World, p: Intent, sources: seq<Record>, first: RecordId, q: Queue, mint: RecordId, now: Db) returns (ch: Change)
    requires Refills(w, p, sources, first, q, mint, now)
    ensures ch == Refilled(w, FirstWins, p, sources, first, q, mint) && Taken(w.db, ch, now)
  {
    ch := Refilled(w, FirstWins, p, sources, first, q, mint);
  }

  lemma ReadySources(s: Site, t: Swap, w: World)
    requires Ready(s, t, w)
    ensures Sources(w.db.rows, [t.heir, t.moved]) && forall r :: r in [t.heir, t.moved] ==> w.Automates(r.zone)
  {
    ReadyRows(s, t, w.db.rows);
  }

  lemma LeftoverRefilled(s: Site, t: Swap, w: World, c: Zone, q: Queue, mint: CommitId, n: nat,
                         p: Intent, sources: seq<Record>, first: RecordId, last: RecordId) returns (now: Db)
    requires Ready(s, t, w) && w.Valid() && Room(w.db, mint, n) && n < 10 && c == w.db.zones[t.c.id] && q == PassOf(s, t, c)
    requires p == Editing(t.f.id, mint) && sources == [t.heir, t.moved] && first == t.first + 1 && last == t.first + 5
    ensures Refills(w, p, sources, first, q, last, now)
    ensures now.rows == WithGiven(s, t, c) && now.zones.Keys == w.db.zones.Keys && Integrity(now)
  {
    now := ReadyTaken(s, t, w, c, mint, n);
    ReadyPass(s, t, w, c, q);
    ReadySources(s, t, w);
  }

  /** The next pass, whichever it is, is not empty. */
  ghost predicate LeavesSome(later: World, sources: seq<Record>)
  {
    forall again, second, last :: WholePass(later, FirstWins, sources, again, second, last) ==> !second.Empty()
  }

  lemma NextFinds(s: Site, t: Swap, w: World, c: Zone, p: Intent, q: Queue, later: World)
    requires Ready(s, t, w) && w.Valid() && c == w.db.zones[t.c.id] && q == PassOf(s, t, c) && q.Proper()
    requires WriteBatch(w.db, EditBatch(p, q)) == Ok(later.db) && RowsOk(later.db.rows) && later == Around(s, later.db)
    requires later.db.zones.Keys == w.db.zones.Keys && Integrity(later.db)
    ensures LeavesSome(later, [t.heir, t.moved])
  {
    StillPlaced(s, t, w, later);
    forall again, second, last | WholePass(later, FirstWins, [t.heir, t.moved], again, second, last)
      ensures !second.Empty()
    {
      SecondFinds(s, t, w, c, p, q, later, again, second, last);
    }
  }

  /** The pass went through the records as they are listed, before and after, and left
      some of its work. */
  ghost predicate Listings(s: Site, t: Swap, w: World, now: Db)
  {
    && AddressesListed(w.db.rows, t.f.id, [t.heir, t.moved]) && AddressesListed(now.rows, t.f.id, [t.heir, t.moved])
    && RowsOk(now.rows) && LeavesSome(Around(s, now), [t.heir, t.moved])
  }

  lemma PassLeavesSome(s: Site, t: Swap, w: World, mint: CommitId, n: nat, p: Intent, sources: seq<Record>) returns (q: Queue, first: RecordId, last: RecordId, now: Db)
    requires Ready(s, t, w) && w.Valid() && Room(w.db, mint, n) && n < 10 && NameBefore(t.heir.name, t.held.name)
    requires p == Editing(t.f.id, mint) && sources == [t.heir, t.moved]
    ensures Refills(w, p, sources, first, q, last, now)
    ensures Listings(s, t, w, now)
  {
    var c := w.db.zones[t.c.id];
    q, first, last := PassOf(s, t, c), t.first + 1, t.first + 5;
    now := LeftoverRefilled(s, t, w, c, q, mint, n, p, sources, first, last);
    NextFinds(s, t, w, c, Editing(t.f.id, mint), q, Around(s, now));
    TurnsAreListed(s, t, c);
  }

  /** The store a run comes to, and what the pass leaves of it. */
  ghost predicate Leaves(s: Site, t: Swap, db: Db, now: Db)
  {
    Occurs(db) && RowsOk(db.rows) && Listings(s, t, Around(s, db), now)
  }

  lemma LeftoverPass(s: Site, t: Swap)
    returns (w: World, p: Intent, sources: seq<Record>, first: RecordId, q: Queue, last: RecordId, now: Db)
    requires Displaced(s, t)
    ensures Leaves(s, t, w.db, now) && w == Around(s, w.db) && sources == [t.heir, t.moved] && Refills(w, p, sources, first, q, last, now)
  {
    var db, id, n := LeftoverOccurs(s, t);
    AroundIsValid(s, db);
    w, p, sources := Around(s, db), Editing(t.f.id, id), [t.heir, t.moved];
    q, first, last, now := PassLeavesSome(s, t, w, id, n, p, sources);
  }

  /** Where the entry of a record that moved while the automation was off is still in the
      way, in a store a run comes to, a pass in the order of the listing is accepted and
      the next one finds something left to do. */
  lemma LeftoverNeedsTwoPasses(s: Site, t: Swap) returns (db: Db, ch: Change, now: Db)
    requires Displaced(s, t)
    ensures Leaves(s, t, db, now) && Taken(db, ch, now)
    ensures ch.Refilled? && ch.policy == FirstWins && ch.sources == [t.heir, t.moved] && ch.w == Around(s, db)
  {
    var w, p, sources, first, q, mint;
    w, p, sources, first, q, mint, now := LeftoverPass(s, t);
    db := w.db;
    ch := RefilledTaken(w, p, sources, first, q, mint, now);
  }

  // ---------------------------------------------------- withdrawn while it is off

  lemma OffHung(s: Site, t: Swap, db: Db)
    requires Swapped(s, t) && Shows(t, db, Some(false), WithEntry(s, t))
    ensures Hung(db.rows, t.f.id, t.held, t.c.id, Left(s, t))
  {
  }

  /** A record withdrawn from a zone whose automation is off takes its entry along, and
      nothing is recorded in the zone the entry was in. */
  lemma OffWithdrawalBreaksLaw(s: Site, t: Swap) returns (db: Db, mint: CommitId, now: Db)
    requires Displaced(s, t)
    ensures Occurs(db) && t.f.id in db.zones && RowsOk(db.rows)
    ensures var f := db.zones[t.f.id];
            Taken(db, RequestOf(Around(s, db), FirstWins, f, Withdraw(t.held.id), mint, Put(NO_QUEUE, f, NO_CHANGES.Remove(t.held))), now)
    ensures t.c.id in now.zones && !LawAt(now, t.c.id)
  {
    var n;
    db, mint, n := OffOccurs(s, t);
    OffHung(s, t, db);
    now := WithdrawBreaks(Around(s, db), FirstWins, db.zones[t.f.id], t.held, t.c.id, Left(s, t), mint, n);
  }

  // -------------------------------------------------------------------- an example

  function Plainly(id: RecordId, z: ZoneId, name: Name, addr: Address): Record
  {
    Record(id, z, name, CLASS_IN, A, 300, AddressData(addr), None, None, "", false)
  }

  function Server(id: RecordId, z: Zone): Record
  {
    Record(id, z.id, z.name, CLASS_IN, NS, 300, NameData(["ns", "example"]), None, None, "", false)
  }

  lemma ListsNewFirst()
    ensures NameBefore(["new", "example"], ["old", "example"])
  {
    var a, b: Name := ["new", "example"], ["old", "example"];
    assert a[..1] == ["new"] && b[..1] == ["old"];
    assert LabelBefore("new", "old");
  }

  /** The host old.example leaves 192.0.2.1 to new.example. */
  lemma OldLeavesToNew() returns (s: Site, t: Swap)
    ensures Displaced(s, t) && t.held.name == t.moved.name == ["old", "example"] && t.heir.name == ["new", "example"]
  {
    var soa := Soa(["ns", "example"], ["admin", "example"], 1, 3600, 600, 86400, 300, 300);
    var f := Zone(1, ["example"], None, soa, 300, None, false, "");
    var c := Zone(2, ["2", "0", "192", "in-addr", "arpa"], Some(24), soa, 300, None, false, "");
    var x, y := 0xc000_0201, 0xc000_0202;
    s := Site(2, None, {x, y}, (z, a) => [if a == x then "1" else "2"] + c.name, a => [if a == x then "1" else "2"] + c.name);
    t := Swap(f, c, Server(1, f), Server(2, c), Plainly(3, 1, ["old", "example"], x), Plainly(3, 1, ["old", "example"], y),
              Plainly(4, 1, ["new", "example"], x), x, y, 5);
    ListsNewFirst();
    assert s.owner(2, x)[0] == "1" && s.owner(2, y)[0] == "2";
  }
}
