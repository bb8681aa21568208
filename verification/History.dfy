/** The law the write path keeps: replaying a zone's journal from nothing gives
    the zone the rows hold. */
module History {
  import opened Dns
  import opened Journal
  import opened Changes
  import opened Store
  import opened Write
  import opened View
  import opened Batch

  // --------------------------------------------------------------- the law

  ghost predicate EachSerialOnce(h: seq<Commit>)
  {
    forall i, j :: 0 <= i < j < |h| ==> h[i].serialTo != h[j].serialTo
  }

  ghost predicate AllShaped(h: seq<Commit>)
  {
    forall i :: 0 <= i < |h| ==> DifferenceSequence(h[i].events)
  }

  /** One zone: its commits chain to its serial, each is one difference sequence,
      and replaying them all gives its rows and its start of authority. */
  ghost predicate Law(h: seq<Commit>, z: Zone, content: map<Key, nat>)
  {
    && h != [] && Chained(h) && EachSerialOnce(h) && AllShaped(h)
    && h[0].serialFrom == 0
    && h[|h| - 1].serialTo == z.soa.serial
    && Replay(EMPTY, Events(h)) == Some(Standing(z, content))
  }

  ghost function Standing(z: Zone, content: map<Key, nat>): State
  {
    State(content, Some(z.soa.(serial := 0)))
  }

  ghost predicate LawAt(db: Db, z: ZoneId)
    requires z in db.zones
  {
    Law(Of(db.commits, z), db.zones[z], Served(db.rows, z))
  }

  ghost predicate Lawful(db: Db)
  {
    && Integrity(db) && Acyclic(db.rows)
    && forall z :: z in db.zones ==> LawAt(db, z)
  }

  const NO_DATA := Db(map[], map[], [])

  lemma StartsLawful()
    ensures Lawful(NO_DATA)
  {
    assert Descends(NO_DATA.rows, id => 0);
  }

  /** A commit that takes up at the zone's serial and carries the zone from what
      it was to what it is extends the law. */
  lemma LawExtends(h: seq<Commit>, z: Zone, content: map<Key, nat>, c: Commit, after: Zone, grown: map<Key, nat>)
    requires Law(h, z, content)
    requires c.serialFrom == z.soa.serial && c.serialTo == after.soa.serial && DifferenceSequence(c.events)
    requires forall i :: 0 <= i < |h| ==> h[i].serialTo != c.serialTo
    requires Replay(Standing(z, content), c.events) == Some(Standing(after, grown))
    ensures Law(h + [c], after, grown)
  {
    EventsConcat(h, [c]);
    assert Events([c]) == c.events + Events([]);
    assert Events([c]) == c.events;
    ReplayConcat(EMPTY, Events(h), c.events);
  }

  lemma LawBegins(c: Commit, z: Zone, content: map<Key, nat>)
    requires c.serialFrom == 0 && c.serialTo == z.soa.serial && DifferenceSequence(c.events)
    requires Replay(EMPTY, c.events) == Some(Standing(z, content))
    ensures Law([c], z, content)
  {
    assert Events([c]) == c.events + Events([]);
    assert Events([c]) == c.events;
  }

  // --------------------------------------------------- what a commit replays

  lemma SoaEventTells(op: Op, name: Name, soa: Soa)
    ensures SoaOf(SoaEvent(op, name, soa)) == Some(soa.(serial := 0))
  {
  }

  lemma EventsOfShaped(c: Changes)
    ensures DifferenceSequence(EventsOf(c))
  {
    var es := EventsOf(c);
    var n := |Leaving(c)|;
    forall i, j | 0 <= i < |es| && i < j < |es| && es[i].op == Add
      ensures es[j].op == Add
    {
      assert i >= n;
    }
  }

  /** The start of authority a zone has once a commit for it is written. */
  function SoaThen(z: Zone, c: Changes, to: Serial): Soa
  {
    if c.soa.Some? then RestoredSoa(c.soa.value, to) else z.soa.(serial := to)
  }

  /** An ordinary commit's events carry the zone's changes out. */
  lemma CommitReplays(p: Intent, z: Zone, c: Changes, content: map<Key, nat>, id: CommitId)
    requires Fits(content, c) && !Creates(p, z.id)
    requires c.soa.Some? ==> SameSoa(c.soa.value.before, z.soa)
    ensures var commit := CommitFor(p, z, c, id);
            && DifferenceSequence(commit.events)
            && Replay(Standing(z, content), commit.events) ==
               Some(Standing(z.(soa := SoaThen(z, c, commit.serialTo)), Outcome(content, c)))
  {
    var commit := CommitFor(p, z, c, id);
    EventsOfShaped(c);
    if c.soa.Some? {
      var was := SoaEvent(Del, z.name, c.soa.value.before);
      var now := SoaEvent(Add, z.name, RestoredSoa(c.soa.value, commit.serialTo));
      SoaEventTells(Del, z.name, c.soa.value.before);
      SoaEventTells(Add, z.name, RestoredSoa(c.soa.value, commit.serialTo));
      FoldKeepsShape(EventsOf(c), was, now);
      FoldedEventsCarryOut(Standing(z, content), c, was, now);
    } else {
      EventsCarryOut(Standing(z, content), c);
    }
  }

  /** A zone's first commit brings all of it into being. */
  lemma CreationReplays(p: Intent, z: Zone, c: Changes, id: CommitId)
    requires Fits(map[], c) && Creates(p, z.id)
    ensures var commit := CommitFor(p, z, c, id);
            && (Leaving(c) == [] ==> DifferenceSequence(commit.events))
            && Replay(EMPTY, commit.events) == Some(Standing(z, Outcome(map[], c)))
  {
    var commit := CommitFor(p, z, c, id);
    var lead := SoaEvent(Add, z.name, z.soa);
    SoaEventTells(Add, z.name, z.soa);
    ReplayIgnoresNumbers(EMPTY, commit.events, [lead] + EventsOf(c));
    assert ([lead] + EventsOf(c))[1..] == EventsOf(c);
    var begun := EMPTY.(soa := Some(z.soa.(serial := 0)));
    assert Step(EMPTY, lead) == Some(begun);
    EventsCarryOut(begun, c);
  }

  // ------------------------------------------------------ recording commits

  ghost function ZoneAfter(z: Zone, b: Batch, commit: Commit): Zone
  {
    if commit.zone in b.queue.byZone && !b.HasOp(commit.zone) then
      z.(soa := SoaThen(z, b.queue.byZone[commit.zone], commit.serialTo))
    else z
  }

  ghost function ZoneThrough(z: Zone, b: Batch, cs: seq<Commit>): Zone
    decreases |cs|
  {
    if cs == [] then z else ZoneThrough(ZoneAfter(z, b, cs[0]), b, cs[1..])
  }

  /** No identifier, and no serial of a zone, is used by two of these. */
  ghost predicate Apart(former: seq<Commit>, cs: seq<Commit>)
  {
    forall i, j :: 0 <= i < |former| && 0 <= j < |cs| ==> !SameSlot(former[i], cs[j])
  }

  ghost predicate Recorded(was: Db, now: Db, b: Batch, cs: seq<Commit>)
  {
    && now.rows == was.rows && now.commits == was.commits + cs
    && now.zones.Keys == was.zones.Keys
    && (forall z :: z in was.zones ==> now.zones[z] == ZoneThrough(was.zones[z], b, Of(cs, z)))
    && (forall c :: c in cs ==> ValidCommit(c))
    && Apart(was.commits, cs)
  }

  ghost predicate ZoneIds(zones: map<ZoneId, Zone>)
  {
    forall z :: z in zones ==> zones[z].id == z
  }

  lemma OneCommit(db: Db, b: Batch, c: Commit)
    requires WriteCommit(db, b, c).Ok? && ZoneIds(db.zones)
    ensures var next := WriteCommit(db, b, c).value;
            && next.rows == db.rows && next.commits == db.commits + [c] && next.zones.Keys == db.zones.Keys
            && (forall z :: z in db.zones ==> next.zones[z] == if z == c.zone then ZoneAfter(db.zones[z], b, c) else db.zones[z])
            && ValidCommit(c) && Apart(db.commits, [c]) && ZoneIds(next.zones)
  {
  }

  lemma OfCons(cs: seq<Commit>, z: ZoneId)
    requires cs != []
    ensures Of(cs, z) == (if cs[0].zone == z then [cs[0]] else []) + Of(cs[1..], z)
  {
  }

  lemma RecordedCons(was: Db, mid: Db, now: Db, b: Batch, cs: seq<Commit>)
    requires cs != [] && ValidCommit(cs[0]) && Apart(was.commits, [cs[0]])
    requires mid.rows == was.rows && mid.commits == was.commits + [cs[0]] && mid.zones.Keys == was.zones.Keys
    requires forall z :: z in was.zones ==>
               mid.zones[z] == if z == cs[0].zone then ZoneAfter(was.zones[z], b, cs[0]) else was.zones[z]
    requires Recorded(mid, now, b, cs[1..])
    ensures Recorded(was, now, b, cs)
  {
    assert cs == [cs[0]] + cs[1..];
    forall z | z in was.zones
      ensures now.zones[z] == ZoneThrough(was.zones[z], b, Of(cs, z))
    {
      OfCons(cs, z);
      if cs[0].zone == z {
        assert Of(cs, z)[1..] == Of(cs[1..], z);
      } else {
        assert Of(cs, z) == Of(cs[1..], z);
      }
    }
    forall i, j | 0 <= i < |was.commits| && 0 <= j < |cs|
      ensures !SameSlot(was.commits[i], cs[j])
    {
      if j == 0 {
        assert [cs[0]][0] == cs[0];
      } else {
        assert mid.commits[i] == was.commits[i] && cs[1..][j - 1] == cs[j];
      }
    }
  }

  lemma {:induction false} CommitsRecorded(db: Db, b: Batch, cs: seq<Commit>)
    requires WriteCommits(db, b, cs).Ok? && ZoneIds(db.zones)
    ensures Recorded(db, WriteCommits(db, b, cs).value, b, cs)
    ensures ZoneIds(WriteCommits(db, b, cs).value.zones)
    decreases |cs|
  {
    if cs != [] {
      OneCommit(db, b, cs[0]);
      var next := WriteCommit(db, b, cs[0]).value;
      CommitsRecorded(next, b, cs[1..]);
      RecordedCons(db, next, WriteCommits(db, b, cs).value, b, cs);
    }
  }

  /** A zone's own commit in a plan, if it has anything to record. */
  ghost function Own(p: Intent, q: Queue, z: ZoneId, id: CommitId): seq<Commit>
    requires q.Proper()
  {
    if q.For(z).Empty() then [] else
      assert z in q.order;
      [CommitFor(p, q.zones[z], q.byZone[z], id)]
  }

  lemma PlannedAtOf(p: Intent, q: Queue, i: nat, z: ZoneId)
    requires q.Proper() && i < |q.order|
    ensures Of(PlannedAt(p, q, i), z) == if q.order[i] == z then PlannedAt(p, q, i) else []
  {
  }

  /** Lists put one after another. */
  ghost function Joined(at: nat -> seq<Commit>, n: nat): seq<Commit>
  {
    if n == 0 then [] else Joined(at, n - 1) + at(n - 1)
  }

  /** Where only one of the lists names a zone, that list is the zone's. */
  lemma {:induction false} JoinedOf(at: nat -> seq<Commit>, n: nat, k: nat, z: ZoneId)
    requires forall i :: 0 <= i < n ==> Of(at(i), z) == if i == k then at(i) else []
    ensures Of(Joined(at, n), z) == if k < n then at(k) else []
  {
    if n > 0 {
      JoinedOf(at, n - 1, k, z);
      OfConcat(Joined(at, n - 1), at(n - 1), z);
    }
  }

  lemma {:induction false} PlannedIsJoined(p: Intent, q: Queue, at: nat -> seq<Commit>, n: nat)
    requires q.Proper() && n <= |q.order|
    requires forall i :: 0 <= i < n ==> at(i) == PlannedAt(p, q, i)
    ensures Planned(p, q, n) == Joined(at, n)
  {
    if n > 0 { PlannedIsJoined(p, q, at, n - 1); }
  }

  lemma PlannedOf(p: Intent, q: Queue, k: nat, z: ZoneId)
    requires q.Proper() && forall i :: 0 <= i < |q.order| ==> (q.order[i] == z <==> i == k)
    ensures Of(Planned(p, q, |q.order|), z) == if k < |q.order| then PlannedAt(p, q, k) else []
  {
    var at := (i: nat) => if i < |q.order| then PlannedAt(p, q, i) else [];
    PlannedIsJoined(p, q, at, |q.order|);
    forall i | 0 <= i < |q.order|
      ensures Of(at(i), z) == if i == k then at(i) else []
    {
      PlannedAtOf(p, q, i, z);
    }
    JoinedOf(at, |q.order|, k, z);
  }

  lemma OwnIs(p: Intent, q: Queue, k: nat)
    requires q.Proper() && k < |q.order|
    ensures PlannedAt(p, q, k) == Own(p, q, q.order[k], p.mint + k)
  {
  }

  lemma OwnCommit(p: Intent, q: Queue, z: ZoneId) returns (id: CommitId)
    requires q.Proper()
    ensures Of(Planned(p, q, |q.order|), z) == Own(p, q, z, id)
  {
    if z in q.byZone {
      assert z in q.order;
      var k :| 0 <= k < |q.order| && q.order[k] == z;
      PlannedOf(p, q, k, z);
      OwnIs(p, q, k);
      id := p.mint + k;
    } else {
      PlannedOf(p, q, |q.order|, z);
      id := 0;
    }
  }
}
