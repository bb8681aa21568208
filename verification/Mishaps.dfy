/** Commands that are accepted one after another, and what they leave. */
module Mishaps {
  import opened Dns
  import opened Journal
  import opened Changes
  import opened Ordering
  import opened Store
  import opened Write
  import opened Batch
  import opened History
  import opened Upkeep
  import opened Queues
  import opened Reverse
  import opened Generation
  import opened Expansion
  import opened Command
  import opened Restoring
  import opened Lifetime
  import opened Acceptance
  import opened Asking
  import opened Effects
  import opened Cases
  import Rollback

  // --------------------------------------------------- a change to one zone, accepted

  /** No commit has the identifier, and none of the zone's the serial after its own. */
  ghost predicate Open(db: Db, z: Zone, id: CommitId)
  {
    forall i :: 0 <= i < |db.commits| ==>
      db.commits[i].id != id && (db.commits[i].zone == z.id ==> db.commits[i].serialTo != Next(z.soa.serial))
  }

  /** The store once a commit of one zone is recorded over these rows. */
  ghost function RecordedOnce(db: Db, z: Zone, rows: Rows, k: Commit): Db
  {
    Db(db.zones[z.id := z.(soa := z.soa.(serial := k.serialTo))], rows, db.commits + [k])
  }

  lemma OneZonePlanned(p: Intent, z: Zone, c: Changes)
    requires !c.Empty()
    ensures Put(NO_QUEUE, z, c).Proper()
    ensures EditBatch(p, Put(NO_QUEUE, z, c)) == Batch([], Put(NO_QUEUE, z, c), [CommitFor(p, z, c, p.mint)])
  {
    var q := Put(NO_QUEUE, z, c);
    OneZoneGathers(z, c);
    assert Planned(p, q, 1) == Planned(p, q, 0) + PlannedAt(p, q, 0);
  }

  lemma OneCommitWritten(db: Db, b: Batch, z: Zone, k: Commit)
    requires b.ops == [] && b.commits == [k] && z.id in db.zones && db.zones[z.id] == z && k.zone == z.id
    requires z.id in b.queue.byZone && b.queue.byZone[z.id].soa.None? && ValidCommit(k)
    requires forall i :: 0 <= i < |db.commits| ==> !SameSlot(db.commits[i], k)
    ensures WriteCommits(db, b, b.commits) == Ok(RecordedOnce(db, z, db.rows, k))
  {
    assert !b.HasOp(z.id);
    var moved := SetZoneSerial(db, z.id, k.serialTo).value;
    assert WriteCommit(db, b, k) == AppendCommit(moved, k);
    assert b.commits[1..] == [];
    assert WriteCommits(db, b, b.commits) == WriteCommits(RecordedOnce(db, z, db.rows, k), b, b.commits[1..]);
  }

  /** Changes to one zone that go through are recorded, under the next serial. */
  lemma OneZoneAccepted(db: Db, p: Intent, z: Zone, c: Changes, rows: Rows)
    requires z.id in db.zones && db.zones[z.id] == z && p.kind == Edit && p.revertsTo.None? && !c.Empty() && c.soa.None?
    requires WriteQueue(db, Put(NO_QUEUE, z, c)) == Ok(db.(rows := rows)) && Open(db, z, p.mint)
    ensures Put(NO_QUEUE, z, c).Proper()
    ensures var k := CommitFor(p, z, c, p.mint);
            && k.zone == z.id && k.serialTo == Next(z.soa.serial)
            && WriteBatch(db, EditBatch(p, Put(NO_QUEUE, z, c))) == Ok(RecordedOnce(db, z, rows, k))
  {
    var k, carried := CommitFor(p, z, c, p.mint), db.(rows := rows);
    OneZonePlanned(p, z, c);
    OneZoneGathers(z, c);
    EditCommitIs(p, z, c, p.mint);
    var b := EditBatch(p, Put(NO_QUEUE, z, c));
    OneCommitWritten(carried, b, z, k);
  }

  // ------------------------------------------------------- one record, amended twice

  /** Two updates of one record in one command are both resolved against the row as it
      stands, both written, and leave a journal that does not replay. */
  lemma TwiceAmendedBreaksLaw(db: Db, z: Zone, r: Record, once: nat, twice: nat, sets: RRsetKey -> seq<Record>, mint: CommitId)
    requires Lawful(db) && z.id in db.zones && db.zones[z.id] == z
    requires Stored(db.rows, z.id, r) && r.managedBy.None? && Contains(z, r.name) && Open(db, z, mint)
    requires once <= MAX_TTL && twice <= MAX_TTL && r.ttl != once && r.ttl != twice
    ensures var resolved := ResolvedAll(db, z, NO_CHANGES, [Amend(r.id, r.(ttl := once)), Amend(r.id, r.(ttl := twice))], sets);
            && resolved.Ok? && Put(NO_QUEUE, z, resolved.value).Proper()
            && var after := WriteBatch(db, EditBatch(Editing(z.id, mint), Put(NO_QUEUE, z, resolved.value)));
               after.Ok? && z.id in after.value.zones && !LawAt(after.value, z.id)
  {
    var a, b := r.(ttl := once), r.(ttl := twice);
    var c := NO_CHANGES.Replace(r, a).Replace(r, b);
    BothAmended(db, z, r, a, b, sets);
    TwoUpdatesWritten(db, z, c, r, a, b);
    OneZoneAccepted(db, Editing(z.id, mint), z, c, db.rows[r.id := b]);
    OneZoneGathers(z, c);
    TwiceAmendedDraft(db, z, c, r, a, b);
    TwiceNamedBreaksLaw(db, Editing(z.id, mint), Put(NO_QUEUE, z, c), z.id);
  }

  lemma TwiceAmendedDraft(db: Db, z: Zone, c: Changes, r: Record, a: Record, b: Record)
    requires Integrity(db) && z.id in db.zones && db.zones[z.id] == z && Stored(db.rows, z.id, r) && r.managedBy.None?
    requires a == r.(ttl := a.ttl) && b == r.(ttl := b.ttl) && ValidRecord(a) && ValidRecord(b)
    requires c == NO_CHANGES.Replace(r, a).Replace(r, b)
    ensures Put(NO_QUEUE, z, c).Proper() && z.id in Put(NO_QUEUE, z, c).byZone && DraftIn(db, Put(NO_QUEUE, z, c), z.id)
    ensures !UniqueIds(Leaving(c))
  {
    OneZoneGathers(z, c);
    assert c.updates == [Update(r, a), Update(r, b)];
    assert DraftUpdate(db.rows, z.id, Update(r, a)) && DraftUpdate(db.rows, z.id, Update(r, b));
    assert Leaving(c)[0] == r && Leaving(c)[1] == r;
  }

  // ------------------------------------------- an entry detached, retyped, withdrawn

  function Loose(e: Record): Record
  {
    e.(managedBy := None, managedKind := None)
  }

  function Retyped(e: Record): Record
  {
    Loose(e).(typ := OtherType(16), data := TextData(""))
  }

  /** A record among name servers, in whatever form, with a row of another zone hanging
      off it. */
  ghost predicate Hung(rows: Rows, c: ZoneId, e: Record, p: ZoneId, x: Record)
  {
    && e.id in rows && rows[e.id] == e && e.zone == c && (forall id :: id in rows && rows[id].zone == c ==> id == e.id || rows[id].typ == NS)
    && x.id in rows && rows[x.id] == x && x.zone == p && x.managedBy == Some(e.id) && p != c && x.id != e.id
  }

  lemma OneUpdated(db: Db, z: Zone, before: Record, after: Record)
    requires UpdateRecord(db, after).Ok?
    ensures WriteQueue(db, Put(NO_QUEUE, z, NO_CHANGES.Replace(before, after))) == Ok(db.(rows := db.rows[after.id := after]))
  {
    var c := NO_CHANGES.Replace(before, after);
    OneZoneGathers(z, c);
    OneOrdered(before, true);
    OneOrdered(before, false);
    assert c.updates == [Update(before, after)] && c.updates[1..] == [];
    var next := db.(rows := db.rows[after.id := after]);
    assert UpdateAll(db, c.updates) == UpdateAll(next, c.updates[1..]);
  }

  lemma HungUpdates(db: Db, c: Zone, p: ZoneId, e: Record, x: Record, after: Record)
    requires Integrity(db) && c.id in db.zones && Hung(db.rows, c.id, e, p, x) && after.id == e.id && after.zone == c.id
    requires ValidRecord(after) && after.managedBy.None? && after.typ != NS
    ensures WriteQueue(db, Put(NO_QUEUE, c, NO_CHANGES.Replace(e, after))) == Ok(db.(rows := db.rows[e.id := after]))
    ensures Hung(db.rows[e.id := after], c.id, after, p, x)
  {
    assert UpdateRecord(db, after).Ok?;
    OneUpdated(db, c, e, after);
  }

  lemma OneMover(u: Update)
    requires SameReverse(u.before, u.after)
    ensures Movers([u]) == [] && UpdatedRoots([u]) == {}
  {
    assert [u][..0] == [];
    assert Movers([]) + [] == [];
  }

  lemma OneUpdateIsPlain(w: World, z: ZoneId, e: Record, after: Record)
    requires SameReverse(e, after) || !w.Automates(z)
    ensures Plain(w, z, NO_CHANGES.Replace(e, after))
  {
    var c := NO_CHANGES.Replace(e, after);
    assert c.updates == [Update(e, after)];
    if w.Automates(z) { OneMover(Update(e, after)); }
    assert DeletedRoots(c.deletes) == {};
    assert |Leaving(c)| == 1;
  }

  lemma OneRemovalIsPlain(w: World, z: ZoneId, r: Record)
    requires !CanGenerate(r.typ) || !w.Automates(z)
    ensures Plain(w, z, NO_CHANGES.Remove(r))
  {
    OneRemoval(r);
    assert !CanGenerate(r.typ) ==> Roots(NO_CHANGES.Remove(r)) == {};
  }

  /** One record updated, and nothing else called for. */
  ghost predicate Updating(w: World, z: Zone, op: RecordOp, before: Record, after: Record, c: Changes)
  {
    && Integrity(w.db) && w.Holds(z) && ValidOp(z.id, op) && c == NO_CHANGES.Replace(before, after) && Plain(w, z.id, c)
    && Resolved(w.db, z, NO_CHANGES, op, SetsOf(w.db.rows, z.id)) == Ok(c)
    && WriteQueue(w.db, Put(NO_QUEUE, z, c)) == Ok(w.db.(rows := w.db.rows[before.id := after]))
  }

  lemma UpdateOccurs(w: World, z: Zone, op: RecordOp, before: Record, after: Record, c: Changes, mint: CommitId, n: nat) returns (now: Db)
    requires Updating(w, z, op, before, after, c) && Occurs(w.db) && Began(w.db, mint, n) && n + 1 < SERIAL_SPACE - 1
    ensures Occurs(now) && Began(now, mint + 1, n + 1)
    ensures now.rows == w.db.rows[before.id := after] && now.zones == w.db.zones[z.id := Moved(z)]
  {
    now := PlainTaken(w, FirstWins, z, op, c, mint, n, w.db.rows[before.id := after]);
    TakenOccurs(w.db, RequestOf(w, FirstWins, z, op, mint, Put(NO_QUEUE, z, c)), now);
  }

  lemma DetachUpdates(w: World, c: Zone, e: Record, after: Record, p: ZoneId, x: Record)
    requires Integrity(w.db) && w.Holds(c) && Hung(w.db.rows, c.id, e, p, x) && e.typ == PTR && e.managedBy.Some? && after == Loose(e)
    ensures Updating(w, c, Detach(e.id), e, after, NO_CHANGES.Replace(e, after))
    ensures Hung(w.db.rows[e.id := after], c.id, after, p, x)
  {
    assert SameReverse(e, after) && ValidRecord(after);
    HungUpdates(w.db, c, p, e, x, after);
    OneUpdateIsPlain(w, c.id, e, after);
  }

  lemma AmendResolved(db: Db, c: Zone, before: Record, after: Record, sets: RRsetKey -> seq<Record>)
    requires before.id in db.rows && db.rows[before.id] == before && before.zone == c.id && before.managedBy.None?
    requires after.id == before.id && after.managedBy == before.managedBy && after.managedKind == before.managedKind
    requires KeyOf(after) != KeyOf(before) && Contains(c, after.name)
    ensures Resolved(db, c, NO_CHANGES, Amend(before.id, after), sets) == Ok(NO_CHANGES.Replace(before, after))
  {
    assert Kept(before, after) == after;
  }

  lemma RetypeUpdates(w: World, c: Zone, before: Record, after: Record, p: ZoneId, x: Record)
    requires Integrity(w.db) && w.Holds(c) && Hung(w.db.rows, c.id, before, p, x)
    requires before.typ == PTR && before.managedBy.None? && before.managedKind.None? && Contains(c, before.name)
    requires after == before.(typ := OtherType(16), data := TextData(""))
    ensures Updating(w, c, Amend(before.id, after), before, after, NO_CHANGES.Replace(before, after))
    ensures Hung(w.db.rows[before.id := after], c.id, after, p, x)
  {
    assert SameReverse(before, after) && ValidRecord(after);
    assert KeyOf(before).typ != KeyOf(after).typ;
    AmendUpdates(w, c, before, after, p, x);
  }

  lemma AmendUpdates(w: World, c: Zone, before: Record, after: Record, p: ZoneId, x: Record)
    requires Integrity(w.db) && w.Holds(c) && Hung(w.db.rows, c.id, before, p, x) && SameReverse(before, after) && ValidRecord(after)
    requires KeyOf(after) != KeyOf(before) && Contains(c, after.name) && after.typ != NS && before.managedBy.None?
    requires after.id == before.id && after.zone == before.zone && after.managedBy == before.managedBy && after.managedKind == before.managedKind
    ensures Updating(w, c, Amend(before.id, after), before, after, NO_CHANGES.Replace(before, after))
    ensures Hung(w.db.rows[before.id := after], c.id, after, p, x)
  {
    HungUpdates(w.db, c, p, before, x, after);
    OneUpdateIsPlain(w, c.id, before, after);
    AmendResolved(w.db, c, before, after, SetsOf(w.db.rows, c.id));
  }

  /** Withdrawing a record that nothing looks below, for its type or because the
      automation is off, is taken, and takes along what hangs off it, unrecorded. */
  lemma WithdrawBreaks(w: World, policy: Policy, c: Zone, t: Record, p: ZoneId, x: Record, mint: CommitId, n: nat) returns (now: Db)
    requires Began(w.db, mint, n) && w.Holds(c) && p in w.db.zones && (!CanGenerate(t.typ) || !w.Automates(c.id))
    requires Hung(w.db.rows, c.id, t, p, x) && t.managedBy.None?
    ensures Taken(w.db, RequestOf(w, policy, c, Withdraw(t.id), mint, Put(NO_QUEUE, c, NO_CHANGES.Remove(t))), now)
    ensures p in now.zones && !LawAt(now, p)
  {
    var rows := w.db.rows - Cascade(w.db.rows, {t.id});
    OneRemoved(w.db, c, t);
    OneRemovalIsPlain(w, c.id, t);
    now := PlainTaken(w, policy, c, Withdraw(t.id), NO_CHANGES.Remove(t), mint, n, rows);
    assert x.id in Below(w.db.rows, Cascade(w.db.rows, {t.id}));
    assert LawAt(w.db, p);
    LosingBreaks(w.db, now, p, x);
  }

  lemma ChainHung(s: Site, t: Scene, db: Db)
    requires Strung(s, t) && Posted(s, t, db) && RowsOk(db.rows)
    ensures Hung(db.rows, t.c.id, EntryOf(s, t), t.p.id, PostOf(s, t)) && ValidRecord(EntryOf(s, t))
  {
    ChainBelow(s, t, db.rows);
  }

  /** The entry in some form, wherever the run has come to. */
  ghost predicate EntryStands(s: Site, t: Scene, db: Db, e: Record, mint: CommitId, n: nat)
  {
    && Occurs(db) && Began(db, mint, n) && Hung(db.rows, t.c.id, e, t.p.id, PostOf(s, t))
    && t.c.id in db.zones && t.p.id in db.zones && db.zones[t.c.id].name == t.c.name
  }

  lemma ChainStands(s: Site, t: Scene) returns (db: Db, mint: CommitId)
    requires Strung(s, t)
    ensures Posted(s, t, db) && EntryStands(s, t, db, EntryOf(s, t), mint, 1)
  {
    db, mint := ChainOccurs(s, t);
    ChainHung(s, t, db);
  }

  lemma EntryDetached(s: Site, t: Scene, db: Db, e: Record, mint: CommitId, n: nat) returns (now: Db)
    requires EntryStands(s, t, db, e, mint, n) && n < 10 && e.typ == PTR && e.managedBy.Some?
    ensures EntryStands(s, t, now, Loose(e), mint + 1, n + 1) && now.rows == db.rows[e.id := Loose(e)]
  {
    var c, x := db.zones[t.c.id], PostOf(s, t);
    DetachUpdates(Around(s, db), c, e, Loose(e), t.p.id, x);
    now := UpdateOccurs(Around(s, db), c, Detach(e.id), e, Loose(e), NO_CHANGES.Replace(e, Loose(e)), mint, n);
  }

  lemma EntryRetyped(s: Site, t: Scene, db: Db, e: Record, after: Record, mint: CommitId, n: nat) returns (now: Db)
    requires EntryStands(s, t, db, e, mint, n) && n < 10 && e.typ == PTR && e.managedBy.None? && e.managedKind.None?
    requires after == e.(typ := OtherType(16), data := TextData("")) && Contains(t.c, e.name)
    ensures EntryStands(s, t, now, after, mint + 1, n + 1) && now.rows == db.rows[e.id := after]
  {
    var c, x := db.zones[t.c.id], PostOf(s, t);
    RetypeUpdates(Around(s, db), c, e, after, t.p.id, x);
    now := UpdateOccurs(Around(s, db), c, Amend(e.id, after), e, after, NO_CHANGES.Replace(e, after), mint, n);
  }

  lemma EntryWithdrawn(s: Site, t: Scene, db: Db, e: Record, mint: CommitId, n: nat) returns (now: Db)
    requires EntryStands(s, t, db, e, mint, n) && !CanGenerate(e.typ) && e.managedBy.None?
    ensures var c := db.zones[t.c.id];
            Taken(db, RequestOf(Around(s, db), FirstWins, c, Withdraw(e.id), mint, Put(NO_QUEUE, c, NO_CHANGES.Remove(e))), now)
    ensures t.p.id in now.zones && !LawAt(now, t.p.id)
  {
    now := WithdrawBreaks(Around(s, db), FirstWins, db.zones[t.c.id], e, t.p.id, PostOf(s, t), mint, n);
  }

  /** Detached and given another type, each by a command that is taken. */
  lemma EntryReshaped(s: Site, t: Scene) returns (db: Db, two: Db, mint: CommitId)
    requires Strung(s, t) && Contains(t.c, s.owner(t.c.id, t.addr))
    ensures Occurs(db) && Posted(s, t, db)
    ensures EntryStands(s, t, two, Retyped(EntryOf(s, t)), mint, 3)
  {
    var e := EntryOf(s, t);
    db, mint := ChainStands(s, t);
    var one := EntryDetached(s, t, db, e, mint, 1);
    two := EntryRetyped(s, t, one, Loose(e), Retyped(e), mint + 1, 2);
    mint := mint + 2;
  }

  /** An entry detached, given another type, and withdrawn while its delegation hangs off
      it, commands of a run, the last of which breaks the law. Retiring looks below
      address records and entries only. */
  lemma RetypedEntryTakesItsDelegation(s: Site, t: Scene) returns (db: Db, two: Db, mint: CommitId, now: Db)
    requires Strung(s, t) && Contains(t.c, s.owner(t.c.id, t.addr))
    ensures Occurs(db) && Posted(s, t, db)
    ensures Occurs(two) && Lawful(two) && Hung(two.rows, t.c.id, Retyped(EntryOf(s, t)), t.p.id, PostOf(s, t)) && t.c.id in two.zones
    ensures var c := two.zones[t.c.id];
            Taken(two, RequestOf(Around(s, two), FirstWins, c, Withdraw(t.first), mint, Put(NO_QUEUE, c, NO_CHANGES.Remove(Retyped(EntryOf(s, t))))), now)
    ensures t.p.id in now.zones && !LawAt(now, t.p.id)
  {
    db, two, mint := EntryReshaped(s, t);
    now := EntryWithdrawn(s, t, two, Retyped(EntryOf(s, t)), mint, 3);
  }

  // -------------------------------------------------- an entry gone, and rolled back

  lemma LedFrom(was: Db, now: Db, z: ZoneId, more: seq<Commit>)
    requires Lawful(was) && Lawful(now) && z in was.zones && z in now.zones && Of(now.commits, z) == Of(was.commits, z) + more
    ensures var start := State(Rollback.Content(HeldIn(was.rows, z)), Some(was.zones[z].soa.(serial := 0)));
            && Of(now.commits, z)[|Of(was.commits, z)|..] == more
            && Replay(start, Events(more)) == Some(Rollback.StateOf(HeldIn(now.rows, z), now.zones[z].soa))
  {
    assert LawAt(was, z) && LawAt(now, z);
    HeldServes(was.rows, z);
    HeldServes(now.rows, z);
    EventsConcat(Of(was.commits, z), more);
    ReplayConcat(EMPTY, Events(Of(was.commits, z)), Events(more));
  }

  /** Undoing everything since a state of the zone puts a record that was generated then
      back, as one written by hand, if and only if it is gone. */
  lemma UndoneAuthorsIff(was: Db, now: Db, z: ZoneId, more: seq<Commit>, first: RecordId, mint: RecordId, ch: Changes, k: Key)
    requires Lawful(was) && Lawful(now) && z in was.zones && z in now.zones && Of(now.commits, z) == Of(was.commits, z) + more
    requires Undone(now, z, |Of(was.commits, z)|, first, mint, ch) && Rollback.Generated(HeldIn(was.rows, z), k)
    ensures k in Keys(ch.inserts) <==> k !in HeldIn(now.rows, z)
    ensures forall i :: 0 <= i < |ch.inserts| ==> ch.inserts[i].managedBy.None?
  {
    LedFrom(was, now, z, more);
    Rollback.GeneratedComesBackIff(now.zones[z], HeldIn(now.rows, z), Events(more), first, mint, ch,
                                   HeldIn(was.rows, z), Some(was.zones[z].soa.(serial := 0)), k);
  }

  /** An authored record withdrawn, and an entry gone with it. */
  ghost predicate Entered(w: World, z: Zone, a: Record, e: Record)
  {
    Withdrawable(w, z, a) && e.id in w.db.rows && w.db.rows[e.id] == e && e.managedBy == Some(a.id)
  }

  /** On every lawful store: an address record withdrawn takes its entry along, and
      whatever rolling the entry's zone back to where it still had the entry works out
      puts the entry back as one written by hand. */
  lemma WithdrawnEntryComesBackByHand(w: World, z: Zone, a: Record, e: Record, out: seq<Record>, top: RecordId, mint: CommitId, n: nat,
                                      first: RecordId, last: RecordId, ch: Changes) returns (now: Db)
    requires Entered(w, z, a, e) && Began(w.db, mint, n)
    requires RetiredAll(w.db.rows, {a.id}, out) && forall id :: id in w.db.rows ==> id < top
    ensures Withdrawing(w, z, a, out).Proper() && Taken(w.db, RequestOf(w, FirstWins, z, Withdraw(a.id), mint, Withdrawing(w, z, a, out)), now)
    ensures Lawful(now) && e.zone in now.zones && e.id !in now.rows
    ensures Undone(now, e.zone, |Of(w.db.commits, e.zone)|, first, last, ch) ==>
              KeyOf(e) in Keys(ch.inserts) && forall i :: 0 <= i < |ch.inserts| ==> ch.inserts[i].managedBy.None?
  {
    now := WithdrawTaken(w, FirstWins, z, a, out, top, mint, n);
    var more := EditBatch(Editing(z.id, mint), Withdrawing(w, z, a, out)).commits;
    OfConcat(w.db.commits, more, e.zone);
    assert e.id in Below(w.db.rows, Cascade(w.db.rows, {a.id}));
    EntryWasHeld(w.db.rows, now.rows, e);
    if Undone(now, e.zone, |Of(w.db.commits, e.zone)|, first, last, ch) {
      UndoneAuthorsIff(w.db, now, e.zone, Of(more, e.zone), first, last, ch, KeyOf(e));
    }
  }

  lemma EntryWasHeld(was: Rows, now: Rows, e: Record)
    requires RowsOk(was) && UniqueKeys(was) && RowsOk(now) && e.id in was && was[e.id] == e && e.managedBy.Some? && e.id !in now
    requires forall id :: id in now ==> id in was && now[id] == was[id]
    ensures Rollback.Generated(HeldIn(was, e.zone), KeyOf(e)) && KeyOf(e) !in HeldIn(now, e.zone)
  {
    HeldIs(was, e.zone, e.id);
    if KeyOf(e) in HeldIn(now, e.zone) { HeldIsRow(now, e.zone, KeyOf(e)); }
  }
}
