/** A zone as its rows serve it, and what replacing some rows by others does to
    it: the bridge between the rows and the journal. */
module View {
  import opened Dns
  import opened Changes
  import opened Ordering
  import opened Store

  ghost predicate Holds(rows: Rows, z: ZoneId, id: RecordId, k: Key)
  {
    id in rows && rows[id].zone == z && KeyOf(rows[id]) == k
  }

  ghost function KeysIn(rows: Rows, z: ZoneId): set<Key>
  {
    set id | id in rows && rows[id].zone == z :: KeyOf(rows[id])
  }

  ghost function TtlAt(rows: Rows, z: ZoneId, k: Key): nat
    requires k in KeysIn(rows, z)
  {
    var id :| id in rows && rows[id].zone == z && KeyOf(rows[id]) == k;
    rows[id].ttl
  }

  /** The TTL each resource record of the zone answers with. */
  ghost function Served(rows: Rows, z: ZoneId): map<Key, nat>
  {
    map k | k in KeysIn(rows, z) :: TtlAt(rows, z, k)
  }

  lemma ServedAt(rows: Rows, z: ZoneId, id: RecordId)
    requires UniqueKeys(rows) && id in rows && rows[id].zone == z
    ensures KeyOf(rows[id]) in Served(rows, z) && Served(rows, z)[KeyOf(rows[id])] == rows[id].ttl
  {
    var k := KeyOf(rows[id]);
    assert k in KeysIn(rows, z);
    assert Holds(rows, z, id, k);
  }

  lemma ServedBy(rows: Rows, z: ZoneId, k: Key) returns (id: RecordId)
    requires k in Served(rows, z)
    ensures Holds(rows, z, id, k)
  {
    id :| id in rows && rows[id].zone == z && KeyOf(rows[id]) == k;
  }

  /** Records that are rows of the zone as they stand, each once. */
  ghost predicate RowsOf(rows: Rows, z: ZoneId, rs: seq<Record>)
  {
    && UniqueIds(rs)
    && forall i :: 0 <= i < |rs| ==> rs[i].id in rows && rows[rs[i].id] == rs[i] && rs[i].zone == z
  }

  /** A row of the zone that is not among these. */
  ghost predicate Rest(rows: Rows, z: ZoneId, rs: seq<Record>, id: RecordId)
  {
    id in rows && rows[id].zone == z && id !in Ids(rs)
  }

  /** In one zone, what leaves gave way to what arrives and nothing else moved. */
  ghost predicate Replaced(was: Rows, now: Rows, z: ZoneId, leaving: seq<Record>, arriving: seq<Record>)
  {
    && RowsOf(was, z, leaving) && RowsOf(now, z, arriving)
    && (forall id :: Rest(was, z, leaving, id) ==> Rest(now, z, arriving, id) && now[id] == was[id])
    && (forall id :: Rest(now, z, arriving, id) ==> Rest(was, z, leaving, id))
  }

  lemma RowsHaveDistinctKeys(rows: Rows, z: ZoneId, rs: seq<Record>)
    requires RowsOk(rows) && UniqueKeys(rows) && RowsOf(rows, z, rs)
    ensures DistinctKeys(rs) && NoSoa(rs) && AllHeld(Served(rows, z), rs)
  {
    forall i | 0 <= i < |rs|
      ensures KeyOf(rs[i]) in Served(rows, z) && Served(rows, z)[KeyOf(rs[i])] == rs[i].ttl
    {
      ServedAt(rows, z, rs[i].id);
    }
  }

  /** A row whose key is one of these is one of these. */
  lemma KeyMeansRow(rows: Rows, z: ZoneId, rs: seq<Record>, id: RecordId)
    requires UniqueKeys(rows) && RowsOf(rows, z, rs) && id in rows && rows[id].zone == z
    ensures KeyOf(rows[id]) in Keys(rs) <==> id in Ids(rs)
  {
    if KeyOf(rows[id]) in Keys(rs) {
      var i :| 0 <= i < |rs| && KeyOf(rs[i]) == KeyOf(rows[id]);
      assert rows[rs[i].id] == rs[i];
    }
    if id in Ids(rs) {
      var i :| 0 <= i < |rs| && rs[i].id == id;
      assert KeyOf(rs[i]) == KeyOf(rows[id]);
    }
  }

  /** What stays keeps clear of what arrives. */
  lemma ArrivalsAreNew(was: Rows, now: Rows, z: ZoneId, c: Changes)
    requires UniqueKeys(was) && UniqueKeys(now)
    requires Replaced(was, now, z, Leaving(c), Arriving(c))
    ensures Keys(Arriving(c)) !! (Served(was, z).Keys - Keys(Leaving(c)))
  {
    forall k | k in Served(was, z).Keys - Keys(Leaving(c))
      ensures k !in Keys(Arriving(c))
    {
      var id := ServedBy(was, z, k);
      KeyMeansRow(was, z, Leaving(c), id);
      assert Rest(was, z, Leaving(c), id);
      KeyMeansRow(now, z, Arriving(c), id);
    }
  }

  /** A replacement fits the content it replaced. */
  lemma ReplacedFits(was: Rows, now: Rows, z: ZoneId, c: Changes)
    requires RowsOk(was) && RowsOk(now) && UniqueKeys(was) && UniqueKeys(now)
    requires Replaced(was, now, z, Leaving(c), Arriving(c))
    ensures Fits(Served(was, z), c)
  {
    RowsHaveDistinctKeys(was, z, Leaving(c));
    RowsHaveDistinctKeys(now, z, Arriving(c));
    ArrivalsAreNew(was, now, z, c);
  }

  /** What arrives is served as it arrived. */
  lemma ArrivalsServed(now: Rows, z: ZoneId, content: map<Key, nat>, c: Changes, k: Key)
    requires RowsOk(now) && UniqueKeys(now) && RowsOf(now, z, Arriving(c)) && Fits(content, c)
    requires k in Keys(Arriving(c))
    ensures k in Served(now, z) && k in Outcome(content, c) && Served(now, z)[k] == Outcome(content, c)[k]
  {
    var i :| 0 <= i < |Arriving(c)| && KeyOf(Arriving(c)[i]) == k;
    OutcomeAt(content, c, k);
    ServedAt(now, z, Arriving(c)[i].id);
  }

  /** What stays is served as it was. */
  lemma StayingServed(was: Rows, now: Rows, z: ZoneId, c: Changes, k: Key)
    requires UniqueKeys(was) && UniqueKeys(now)
    requires Replaced(was, now, z, Leaving(c), Arriving(c))
    requires k !in Keys(Arriving(c))
    ensures k in Served(now, z) <==> k in Served(was, z) && k !in Keys(Leaving(c))
    ensures k in Served(now, z) ==> Served(now, z)[k] == Served(was, z)[k]
  {
    if k in Served(now, z) {
      var id := ServedBy(now, z, k);
      KeyMeansRow(now, z, Arriving(c), id);
      assert Rest(now, z, Arriving(c), id);
      assert Rest(was, z, Leaving(c), id);
      KeyMeansRow(was, z, Leaving(c), id);
      ServedAt(was, z, id);
      ServedAt(now, z, id);
    }
    if k in Served(was, z) && k !in Keys(Leaving(c)) {
      var id := ServedBy(was, z, k);
      KeyMeansRow(was, z, Leaving(c), id);
      assert Rest(was, z, Leaving(c), id);
      ServedAt(now, z, id);
    }
  }

  lemma ReplacedServesAt(was: Rows, now: Rows, z: ZoneId, c: Changes, k: Key)
    requires RowsOk(now) && UniqueKeys(was) && UniqueKeys(now) && Fits(Served(was, z), c)
    requires Replaced(was, now, z, Leaving(c), Arriving(c))
    ensures k in Served(now, z) <==> k in Outcome(Served(was, z), c)
    ensures k in Served(now, z) ==> Served(now, z)[k] == Outcome(Served(was, z), c)[k]
  {
    OutcomeAt(Served(was, z), c, k);
    if k in Keys(Arriving(c)) {
      ArrivalsServed(now, z, Served(was, z), c, k);
    } else {
      StayingServed(was, now, z, c, k);
    }
  }

  /** The rows end up serving what replaying the queue ends up with. */
  lemma ReplacedServes(was: Rows, now: Rows, z: ZoneId, c: Changes)
    requires RowsOk(was) && RowsOk(now) && UniqueKeys(was) && UniqueKeys(now)
    requires Replaced(was, now, z, Leaving(c), Arriving(c))
    ensures Fits(Served(was, z), c) && Served(now, z) == Outcome(Served(was, z), c)
  {
    ReplacedFits(was, now, z, c);
    var after, outcome := Served(now, z), Outcome(Served(was, z), c);
    forall k
      ensures k in after <==> k in outcome
      ensures k in after ==> after[k] == outcome[k]
    {
      ReplacedServesAt(was, now, z, c, k);
    }
    assert after.Keys == outcome.Keys;
  }
}
