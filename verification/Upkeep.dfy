/** Every batch the write path plans keeps the law, exactly when its removals
    take no row they do not name. */
module Upkeep {
  import opened Dns
  import opened Journal
  import opened Changes
  import opened Ordering
  import opened Store
  import opened Write
  import opened View
  import opened Carry
  import opened Batch
  import opened History

  // ---------------------------------------------------------- small facts

  lemma {:induction false} OfMembers(cs: seq<Commit>, z: ZoneId, c: Commit)
    ensures c in Of(cs, z) <==> c in cs && c.zone == z
  {
    if cs != [] {
      OfMembers(cs[1..], z, c);
      assert cs == [cs[0]] + cs[1..];
    }
  }

  /** A serial the store accepts is one the zone has not had. */
  lemma NewSerial(former: seq<Commit>, cs: seq<Commit>, z: ZoneId, c: Commit)
    requires Apart(former, cs) && c in cs && c.zone == z
    ensures forall i :: 0 <= i < |Of(former, z)| ==> Of(former, z)[i].serialTo != c.serialTo
  {
    var j :| 0 <= j < |cs| && cs[j] == c;
    forall i | 0 <= i < |Of(former, z)|
      ensures Of(former, z)[i].serialTo != c.serialTo
    {
      OfMembers(former, z, Of(former, z)[i]);
      var k :| 0 <= k < |former| && former[k] == Of(former, z)[i];
      assert !SameSlot(former[k], cs[j]);
    }
  }

  lemma NothingChanges(content: map<Key, nat>, c: Changes)
    requires Fits(content, c) && c.deletes == [] && c.updates == [] && c.inserts == []
    ensures Outcome(content, c) == content
  {
    assert Leaving(c) == [] && Arriving(c) == [];
    assert Keys(Leaving(c)) == {};
  }

  // --------------------------------------------- an edit, an import, a rollback

  /** What a planner reads in its transaction: the zones as they stand, and the
      start of authority it replaces. */
  ghost predicate AsRead(db: Db, q: Queue, z: ZoneId)
    requires q.Proper() && z in q.byZone
  {
    && z in db.zones && z in q.zones && q.zones[z] == db.zones[z]
    && (q.byZone[z].soa.Some? ==> SameSoa(q.byZone[z].soa.value.before, db.zones[z].soa))
  }

  ghost predicate WellPlanned(db: Db, q: Queue)
  {
    WellQueued(db.rows, q) && forall z {:trigger AsRead(db, q, z)} :: z in q.byZone ==> AsRead(db, q, z)
  }

  function EditBatch(p: Intent, q: Queue): Batch
    requires q.Proper()
  {
    Batch([], q, Planned(p, q, |q.order|))
  }

  ghost function Gone(db: Db, q: Queue): set<RecordId>
  {
    Cascade(db.rows, Ids(AllDeletes(q)))
  }

  /** One zone through one commit of its own. */
  lemma OwnCommitKeepsLaw(was: Db, now: Db, z: ZoneId, p: Intent, c: Changes, commit: Commit)
    requires z in was.zones && was.zones[z].id == z && LawAt(was, z) && z in now.zones && !Creates(p, z)
    requires Fits(Served(was.rows, z), c) && Served(now.rows, z) == Outcome(Served(was.rows, z), c)
    requires c.soa.Some? ==> SameSoa(c.soa.value.before, was.zones[z].soa)
    requires exists id :: commit == CommitFor(p, was.zones[z], c, id)
    requires Of(now.commits, z) == Of(was.commits, z) + [commit]
    requires now.zones[z] == was.zones[z].(soa := SoaThen(was.zones[z], c, commit.serialTo))
    requires forall i :: 0 <= i < |Of(was.commits, z)| ==> Of(was.commits, z)[i].serialTo != commit.serialTo
    ensures LawAt(now, z)
  {
    var id :| commit == CommitFor(p, was.zones[z], c, id);
    CommitReplays(p, was.zones[z], c, Served(was.rows, z), id);
    LawExtends(Of(was.commits, z), was.zones[z], Served(was.rows, z), commit, now.zones[z], Served(now.rows, z));
  }

  /** A zone none of the batch's commits names, and none of its rows. */
  lemma UntouchedKeepsLaw(was: Db, now: Db, z: ZoneId)
    requires z in was.zones && LawAt(was, z) && z in now.zones && now.zones[z] == was.zones[z]
    requires Of(now.commits, z) == Of(was.commits, z) && Served(now.rows, z) == Served(was.rows, z)
    ensures LawAt(now, z)
  {
  }

  /** What recording a batch does to one zone. */
  lemma ZoneRecorded(carried: Db, now: Db, b: Batch, z: ZoneId)
    requires Recorded(carried, now, b, b.commits) && z in carried.zones
    ensures Of(now.commits, z) == Of(carried.commits, z) + Of(b.commits, z)
    ensures forall c, i :: c in Of(b.commits, z) && 0 <= i < |Of(carried.commits, z)| ==>
              Of(carried.commits, z)[i].serialTo != c.serialTo
  {
    OfConcat(carried.commits, b.commits, z);
    forall c, i | c in Of(b.commits, z) && 0 <= i < |Of(carried.commits, z)|
      ensures Of(carried.commits, z)[i].serialTo != c.serialTo
    {
      OfMembers(b.commits, z, c);
      NewSerial(carried.commits, b.commits, z, c);
    }
  }

  /** The batch is at work on a zone it does not create, change or delete as such. */
  ghost predicate Working(was: Db, b: Batch, p: Intent, z: ZoneId, id: CommitId)
  {
    && Integrity(was) && z in was.zones && LawAt(was, z)
    && WellQueued(was.rows, b.queue)
    && (z in b.queue.byZone ==> AsRead(was, b.queue, z))
    && !b.HasOp(z) && !Creates(p, z)
    && Of(b.commits, z) == Own(p, b.queue, z, id)
  }

  ghost predicate Wrote(was: Db, carried: Db, now: Db, b: Batch)
  {
    WriteQueue(was, b.queue) == Ok(carried) && WriteCommits(carried, b, b.commits) == Ok(now)
  }

  lemma WorkedKeepsLaw(was: Db, now: Db, b: Batch, p: Intent, z: ZoneId, id: CommitId)
    requires Working(was, b, p, z, id) && !b.queue.For(z).Empty() && z in now.zones
    requires Fits(Served(was.rows, z), b.queue.For(z))
    requires Served(now.rows, z) == Outcome(Served(was.rows, z), b.queue.For(z))
    requires Of(now.commits, z) == Of(was.commits, z) + Of(b.commits, z)
    requires now.zones[z] == ZoneThrough(was.zones[z], b, Of(b.commits, z))
    requires forall c, i :: c in Of(b.commits, z) && 0 <= i < |Of(was.commits, z)| ==>
               Of(was.commits, z)[i].serialTo != c.serialTo
    ensures LawAt(now, z)
  {
    var q := b.queue;
    var commit := CommitFor(p, q.zones[z], q.byZone[z], id);
    assert Of(b.commits, z) == [commit];
    assert commit in Of(b.commits, z);
    assert ZoneThrough(was.zones[z], b, [commit]) == ZoneAfter(was.zones[z], b, commit) by {
      assert [commit][1..] == [];
    }
    OwnCommitKeepsLaw(was, now, z, p, q.byZone[z], commit);
  }

  /** The law outlives the batch in every zone whose rows the removals spare. */
  lemma ZoneKeepsLaw(was: Db, carried: Db, now: Db, b: Batch, p: Intent, z: ZoneId, id: CommitId)
    requires Working(was, b, p, z, id) && Wrote(was, carried, now, b)
    requires Spares(was.rows, b.queue, z, Gone(was, b.queue))
    ensures z in now.zones && LawAt(now, z)
  {
    WriteCarries(was, b.queue);
    WriteServes(was, b.queue, z);
    CommitsRecorded(carried, b, b.commits);
    ZoneRecorded(carried, now, b, z);
    if b.queue.For(z).Empty() {
      NothingChanges(Served(was.rows, z), b.queue.For(z));
      UntouchedKeepsLaw(was, now, z);
    } else {
      WorkedKeepsLaw(was, now, b, p, z, id);
    }
  }

  // ---------------------------------------------------------- and no other

  /** One of the events, the start of authority apart, does this to this key. */
  ghost predicate Mentions(es: seq<Event>, op: Op, k: Key)
  {
    exists e :: e in es && e.typ != SOA && e.op == op && EventKey(e) == k
  }

  lemma {:induction false} FirstForIs(es: seq<Event>, k: Key)
    ensures match FirstFor(es, k)
            case Some(e) => Mentions(es, e.op, k)
            case None => !Mentions(es, Del, k) && !Mentions(es, Add, k)
  {
    if es != [] {
      FirstForIs(es[1..], k);
      assert es == [es[0]] + es[1..];
    }
  }

  ghost predicate Concerns(rs: seq<Record>, k: Key)
  {
    exists r :: r in rs && KeyOf(r) == k
  }

  /** Apart from the start of authority, a commit's events are its zone's changes. */
  lemma RemovalsMention(c: Changes, k: Key)
    requires Mentions(EventsOf(c), Del, k)
    ensures Concerns(Leaving(c), k)
  {
    var e :| e in EventsOf(c) && e.op == Del && EventKey(e) == k;
    var i :| 0 <= i < |EventsOf(c)| && EventsOf(c)[i] == e;
    var r := Leaving(c)[i];
    assert e == EventFor(Del, r).(seqNo := i);
    assert EventKey(e) == Key(e.name, e.cls, e.typ, e.data);
    assert KeyOf(r) == Key(r.name, r.cls, r.typ, r.data);
    assert r in Leaving(c) && KeyOf(r) == k;
  }

  lemma ArrivalsMention(c: Changes, r: Record)
    requires r in Arriving(c) && r.typ != SOA
    ensures Mentions(EventsOf(c), Add, KeyOf(r))
  {
    var i :| 0 <= i < |Arriving(c)| && Arriving(c)[i] == r;
    var e := EventsOf(c)[|Leaving(c)| + i];
    assert e in EventsOf(c) && EventKey(e) == KeyOf(r);
  }

  ghost predicate SameMentions(a: seq<Event>, b: seq<Event>)
  {
    forall op, k :: Mentions(a, op, k) <==> Mentions(b, op, k)
  }

  lemma NumberedMentions(a: seq<Event>, op: Op, k: Key)
    ensures Mentions(Number(a), op, k) <==> Mentions(a, op, k)
  {
    if Mentions(Number(a), op, k) {
      var e :| e in Number(a) && e.typ != SOA && e.op == op && EventKey(e) == k;
      var i :| 0 <= i < |a| && Number(a)[i] == e;
      assert a[i] in a && EventKey(a[i]) == k;
    }
    if Mentions(a, op, k) {
      var e :| e in a && e.typ != SOA && e.op == op && EventKey(e) == k;
      var i :| 0 <= i < |a| && a[i] == e;
      assert Number(a)[i] in Number(a) && EventKey(Number(a)[i]) == k;
    }
  }

  lemma FoldedMentions(es: seq<Event>, was: Event, now: Event, op: Op, k: Key)
    requires was.typ == SOA && now.typ == SOA
    ensures Mentions(FoldSoa(es, was, now), op, k) <==> Mentions(es, op, k)
  {
    var n := FirstAdd(es);
    NumberedMentions([was] + es[..n] + [now] + es[n..], op, k);
    assert es == es[..n] + es[n..];
  }

  lemma EventsForMention(p: Intent, z: Zone, c: Changes, to: Serial)
    requires !Creates(p, z.id)
    ensures SameMentions(EventsFor(p, z, c, to), EventsOf(c))
  {
    if c.soa.Some? {
      var was, now := SoaEvent(Del, z.name, c.soa.value.before), SoaEvent(Add, z.name, RestoredSoa(c.soa.value, to));
      forall op, k
        ensures Mentions(FoldSoa(EventsOf(c), was, now), op, k) <==> Mentions(EventsOf(c), op, k)
      {
        FoldedMentions(EventsOf(c), was, now, op, k);
      }
    }
  }

  lemma OwnEvents(b: Batch, p: Intent, z: ZoneId, id: CommitId)
    requires b.queue.Proper() && !Creates(p, z) && Of(b.commits, z) == Own(p, b.queue, z, id)
    ensures SameMentions(Events(Of(b.commits, z)), EventsOf(b.queue.For(z)))
  {
    var q := b.queue;
    if q.For(z).Empty() {
      assert EventsOf(q.For(z)) == [];
    } else {
      var commit := CommitFor(p, q.zones[z], q.byZone[z], id);
      assert Events([commit]) == commit.events + Events([]);
      assert Events([commit]) == commit.events;
      EventsForMention(p, q.zones[z], q.byZone[z], commit.serialTo);
    }
  }

  /** With the law before and after, the batch's own events lead from one to the other. */
  lemma OwnEventsLead(was: Db, now: Db, b: Batch, z: ZoneId)
    requires z in was.zones && LawAt(was, z) && z in now.zones && LawAt(now, z)
    requires Of(now.commits, z) == Of(was.commits, z) + Of(b.commits, z)
    ensures Replay(Standing(was.zones[z], Served(was.rows, z)), Events(Of(b.commits, z))) ==
            Some(Standing(now.zones[z], Served(now.rows, z)))
  {
    EventsConcat(Of(was.commits, z), Of(b.commits, z));
    ReplayConcat(EMPTY, Events(Of(was.commits, z)), Events(Of(b.commits, z)));
  }

  /** A record whose key the batch takes out is one its zone's changes name. */
  lemma TakenOutIsNamed(rows: Rows, q: Queue, gone: set<RecordId>, z: ZoneId, id: RecordId)
    requires RowsOk(rows) && UniqueKeys(rows) && WellQueued(rows, q)
    requires forall u :: u in AllUpdates(q) ==> u.after.id in rows - gone
    requires id in gone && id in rows && rows[id].zone == z && Concerns(Leaving(q.For(z)), KeyOf(rows[id]))
    ensures id in Ids(AllDeletes(q))
  {
    var c := q.For(z);
    Queued(rows, q, z);
    var r :| r in Leaving(c) && KeyOf(r) == KeyOf(rows[id]);
    LeavingHeld(rows, z, c, r);
    LeavingIs(c, r);
    if r in c.deletes {
      DeleteIsOwn(rows, q, r);
      IdsOf(AllDeletes(q), id);
    } else {
      var u :| u in c.updates && u.before == r;
      UpdateIsOwn(rows, q, u);
    }
  }

  /** A key nothing arrives with and nothing takes out is served by the row it
      was served by. */
  lemma ServedBySame(was: Rows, mid: Rows, now: Rows, q: Queue, gone: set<RecordId>, z: ZoneId, id: RecordId)
    requires RowsOk(was) && UniqueKeys(was) && WellQueued(was, q) && CarriedBy(was, mid, now, q, gone)
    requires id in was && was[id].zone == z && KeyOf(was[id]) in Served(now, z)
    requires !Concerns(Arriving(q.For(z)), KeyOf(was[id]))
    requires RowsOk(now)
    ensures id !in gone
  {
    var c, k := q.For(z), KeyOf(was[id]);
    var other := ServedBy(now, z, k);
    IdsOf(Arriving(c), other);
    if other in Ids(Arriving(c)) {
      var r :| r in Arriving(c) && r.id == other;
      ArrivingStands(was, mid, now, q, gone, z, r);
    } else {
      UnarrivedWasThere(was, mid, now, q, gone, z, other);
    }
  }
}
