/** Building a queue up: zones as they are reached, records as they are queued. */
module Queues {
  import opened Dns
  import opened Changes
  import opened Ordering
  import opened Store
  import opened Write
  import opened Carry
  import opened Upkeep

  /** The zone's changes, there from now on; a zone already reached keeps its
      place and the copy of it first read. */
  function Put(q: Queue, z: Zone, c: Changes): Queue
  {
    if z.id in q.byZone then Queue(q.zones, q.byZone[z.id := c], q.order)
    else Queue(q.zones[z.id := z], q.byZone[z.id := c], q.order + [z.id])
  }

  lemma PutProper(q: Queue, z: Zone, c: Changes)
    requires q.Proper()
    ensures Put(q, z, c).Proper()
    ensures Put(q, z, c).For(z.id) == c
    ensures forall y :: y != z.id ==> Put(q, z, c).For(y) == q.For(y)
    ensures Put(q, z, c).byZone.Keys == q.byZone.Keys + {z.id}
  {
    var p := Put(q, z, c);
    forall y | y in p.byZone
      ensures y in p.order
    {
      if y in q.byZone {
        assert y in q.order;
      } else {
        assert p.order[|q.order|] == y;
      }
    }
  }

  ghost predicate AllInStep(q: Queue)
  {
    forall z {:trigger q.For(z)} :: InStep(q.For(z))
  }

  lemma PutInStep(q: Queue, z: Zone, c: Changes)
    requires AllInStep(q) && InStep(c)
    ensures AllInStep(Put(q, z, c))
  {
    var p := Put(q, z, c);
    forall y
      ensures InStep(p.For(y))
    {
      assert y != z.id ==> p.For(y) == q.For(y);
    }
  }

  lemma OneInStep(z: Zone, c: Changes)
    requires InStep(c)
    ensures AllInStep(Put(NO_QUEUE, z, c))
  {
    PutInStep(NO_QUEUE, z, c);
  }

  ghost predicate Removes(q: Queue, r: Record)
  {
    exists z :: z in q.byZone && r in q.byZone[z].deletes
  }

  lemma RemovesIs(q: Queue, r: Record)
    requires q.Proper()
    ensures r in AllDeletes(q) <==> Removes(q, r)
  {
    InDeletes(q, |q.order|, r);
    if z :| z in q.byZone && r in q.byZone[z].deletes {
      assert z in q.order;
      var k :| 0 <= k < |q.order| && q.order[k] == z;
      assert r in q.For(q.order[k]).deletes;
    }
  }

  /** A removal of a row of the zone that is not yet named keeps a queue sound. */
  lemma RemoveWellQueued(rows: Rows, z: ZoneId, c: Changes, r: Record)
    requires WellQueuedIn(rows, z, c) && r.id in rows && rows[r.id] == r && r.zone == z && r.id !in Ids(Leaving(c))
    ensures WellQueuedIn(rows, z, c.Remove(r))
  {
    var d := c.Remove(r);
    var n := |c.deletes|;
    assert forall i :: 0 <= i < n ==> Leaving(d)[i] == Leaving(c)[i];
    assert Leaving(d)[n] == r;
    assert forall i :: n < i < |Leaving(d)| ==> Leaving(d)[i] == Leaving(c)[i - 1];
    assert forall i :: 0 <= i < |Leaving(c)| ==> Leaving(c)[i].id in Ids(Leaving(c));
    forall i, j | 0 <= i < j < |Leaving(d)|
      ensures Leaving(d)[i].id != Leaving(d)[j].id
    {
    }
  }

  lemma RemoveLeaves(c: Changes, r: Record)
    ensures Ids(Leaving(c.Remove(r))) == Ids(Leaving(c)) + {r.id}
  {
    forall id
      ensures id in Ids(Leaving(c.Remove(r))) <==> id in Ids(Leaving(c)) || id == r.id
    {
      IdsOf(Leaving(c.Remove(r)), id);
      IdsOf(Leaving(c), id);
      forall s
        ensures s in Leaving(c.Remove(r)) <==> s in Leaving(c) || s == r
      {
        LeavingIs(c.Remove(r), s);
        LeavingIs(c, s);
      }
    }
  }

  /** Changes planned against the store as it stands may join a plan. */
  lemma PutWellPlanned(db: Db, q: Queue, z: Zone, c: Changes)
    requires WellPlanned(db, q) && z.id in db.zones && z == db.zones[z.id]
    requires WellQueuedIn(db.rows, z.id, c) && (c.soa.Some? ==> SameSoa(c.soa.value.before, z.soa))
    ensures WellPlanned(db, Put(q, z, c))
  {
    var next := Put(q, z, c);
    PutProper(q, z, c);
    forall y | y in next.byZone
      ensures WellQueuedIn(db.rows, y, next.byZone[y]) && AsRead(db, next, y)
    {
      if y != z.id {
        assert next.For(y) == q.For(y);
        assert AsRead(db, q, y);
      } else if y in q.byZone {
        assert AsRead(db, q, y);
      }
    }
  }

  lemma RemovesPut(q: Queue, z: Zone, c: Changes, r: Record, s: Record)
    requires q.Proper() && c == q.For(z.id)
    ensures Removes(Put(q, z, c.Remove(r)), s) <==> Removes(q, s) || s == r
  {
    var next := Put(q, z, c.Remove(r));
    PutProper(q, z, c.Remove(r));
    assert next.byZone[z.id].deletes == c.deletes + [r];
    if y :| y in q.byZone && s in q.byZone[y].deletes {
      assert y in next.byZone && s in next.byZone[y].deletes by {
        if y != z.id { assert next.For(y) == q.For(y); }
      }
    }
    if y :| y in next.byZone && s in next.byZone[y].deletes {
      if y != z.id {
        assert next.For(y) == q.For(y);
        assert y in q.byZone;
      } else if s != r {
        assert s in c.deletes;
        assert z.id in q.byZone;
      }
    }
    if s == r {
      assert s in next.byZone[z.id].deletes;
    }
  }

  // ---------------------------------------------------------- one zone, one record

  lemma OneOrdered(r: Record, dependentsFirst: bool)
    ensures Ordered([r], dependentsFirst) == [r] && Ordered([], dependentsFirst) == []
  {
    OrderedIsPermutation([r], dependentsFirst);
    OrderedIsPermutation([], dependentsFirst);
    var out := Ordered([r], dependentsFirst);
    assert |out| == |multiset(out)| == |multiset([r])| == 1;
    assert out[0] in multiset(out);
    var none := Ordered([], dependentsFirst);
    assert |none| == |multiset(none)| == 0;
  }

  /** A queue for one zone gathers that zone's own. */
  lemma OneZoneGathers(z: Zone, c: Changes)
    ensures var q := Put(NO_QUEUE, z, c);
            && q.order == [z.id] && q.Proper() && q.For(z.id) == c && q.byZone.Keys == {z.id}
            && AllDeletes(q) == c.deletes && AllUpdates(q) == c.updates && AllInserts(q) == c.inserts
  {
    var q := Put(NO_QUEUE, z, c);
    PutProper(NO_QUEUE, z, c);
    assert q.order == [z.id];
    assert Deletes(q, 1) == Deletes(q, 0) + c.deletes == c.deletes;
    assert Updates(q, 1) == Updates(q, 0) + c.updates == c.updates;
    assert Inserts(q, 1) == Inserts(q, 0) + c.inserts == c.inserts;
  }
}
