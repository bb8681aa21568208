/** What expanding a command means for the store and for the journal. */
module Upshot {
  import opened Dns
  import opened Changes
  import opened Ordering
  import opened Store
  import opened Write
  import opened Carry
  import opened Batch
  import opened History
  import opened Upkeep
  import opened Runs
  import opened Reverse
  import opened Generation
  import opened Expansion

  /** An expanded command keeps the law if and only if every record it removes
      that has anything hanging off it is of a type known to generate. */
  lemma ExpandedLawfulIff(w: World, policy: Policy, p: Intent, q: Queue, src: ZoneId, next: Queue)
    requires Lawful(w.db) && p.kind != ZoneCreate && Commanded(w.db, q, src) && Expanded(w, policy, q, src, next)
    requires WriteBatch(w.db, EditBatch(p, next)).Ok?
    ensures Lawful(WriteBatch(w.db, EditBatch(p, next)).value) <==> Known(w.db.rows, q.For(src).deletes, w.Automates(src))
  {
    ExpandedClosedIff(w, policy, q, src, next);
    EditLawfulIff(w.db, p, next);
  }

  /** And then every removal finds its row, dependents before sources. */
  lemma ExpandedDeletesSucceed(w: World, policy: Policy, q: Queue, src: ZoneId, next: Queue)
    requires Integrity(w.db) && Acyclic(w.db.rows)
    requires Commanded(w.db, q, src) && Expanded(w, policy, q, src, next) && Known(w.db.rows, q.For(src).deletes, w.Automates(src))
    ensures DeleteAll(w.db, Ordered(AllDeletes(next), true)) == Ok(w.db.(rows := w.db.rows - Ids(AllDeletes(next))))
  {
    ExpandedClosedIff(w, policy, q, src, next);
    AllDeletesUnique(w.db.rows, next);
    DeletesExactIffClosed(w.db, AllDeletes(next));
  }

  lemma {:induction false} DeletesUnique(rows: Rows, q: Queue, n: nat)
    requires WellQueued(rows, q) && n <= |q.order|
    ensures UniqueIds(Deletes(q, n)) && Present(rows, Deletes(q, n))
    ensures forall i :: 0 <= i < |Deletes(q, n)| ==> Deletes(q, n)[i].zone in q.order[..n]
  {
    if n > 0 {
      DeletesUnique(rows, q, n - 1);
      var z := q.order[n - 1];
      var front, last := Deletes(q, n - 1), q.For(z).deletes;
      OwnDeletes(rows, q, z);
      assert q.order[..n] == q.order[..n - 1] + [z];
      assert z !in q.order[..n - 1];
      forall id | id in Ids(front)
        ensures id !in Ids(last)
      {
        var i :| 0 <= i < |front| && front[i].id == id;
        IdsOf(last, id);
      }
      UniqueBoth(front, last);
    }
  }

  lemma OwnDeletes(rows: Rows, q: Queue, z: ZoneId)
    requires WellQueued(rows, q)
    ensures UniqueIds(q.For(z).deletes) && Present(rows, q.For(z).deletes)
    ensures forall r :: r in q.For(z).deletes ==> r.zone == z && r.id in rows && rows[r.id] == r
  {
    Queued(rows, q, z);
    var c := q.For(z);
    assert forall i :: 0 <= i < |c.deletes| ==> Leaving(c)[i] == c.deletes[i];
    forall r | r in c.deletes
      ensures r.zone == z && r.id in rows && rows[r.id] == r
    {
      LeavingIs(c, r);
      LeavingHeld(rows, z, c, r);
    }
    forall i, j | 0 <= i < j < |c.deletes|
      ensures c.deletes[i].id != c.deletes[j].id
    {
      assert Leaving(c)[i] == c.deletes[i] && Leaving(c)[j] == c.deletes[j];
    }
  }

  lemma AllDeletesUnique(rows: Rows, q: Queue)
    requires WellQueued(rows, q)
    ensures UniqueIds(AllDeletes(q)) && Present(rows, AllDeletes(q))
  {
    DeletesUnique(rows, q, |q.order|);
  }

  // --------------------------------------------- every source is there first

  ghost function TierOf(rs: seq<Record>, id: RecordId): nat
  {
    if r :| r in rs && r.id == id then Tier(r) else 0
  }

  lemma TierIs(rs: seq<Record>, r: Record)
    requires UniqueIds(rs) && r in rs
    ensures TierOf(rs, r.id) == Tier(r)
  {
    var s :| s in rs && s.id == r.id && TierOf(rs, r.id) == Tier(s);
    var i :| 0 <= i < |rs| && rs[i] == r;
    var j :| 0 <= j < |rs| && rs[j] == s;
    UniqueApart(rs, i, j);
  }

  lemma AdditionsAreForest(rows: Rows, q: Queue)
    requires q.Proper() && Grounded(rows, q) && UniqueIds(AllInserts(q)) && Ids(AllInserts(q)) !! rows.Keys
    ensures Forest(AllInserts(q))
  {
    var all := AllInserts(q);
    var rank := (id: RecordId) => TierOf(all, id);
    forall a, b | a in all && b in all && HangsOff(a, b)
      ensures rank(b.id) < rank(a.id)
    {
      AddsIs(q, a);
      assert GroundedOne(rows, q, a);
      IdsOf(all, b.id);
      var s :| Adds(q, s) && s.id == b.id && Tier(s) < Tier(a);
      AddsIs(q, s);
      TierIs(all, s);
      TierIs(all, a);
    }
    assert Ranked(all, rank);
  }

  /** When its turn comes, every addition finds the record it hangs off: a row
      that stays, or an addition already made. */
  lemma EveryInsertFindsItsSource(rows: Rows, q: Queue, i: nat)
    requires q.Proper() && Grounded(rows, q) && UniqueIds(AllInserts(q)) && Ids(AllInserts(q)) !! rows.Keys
    requires i < |Ordered(AllInserts(q), false)| && Ordered(AllInserts(q), false)[i].managedBy.Some?
    ensures var out := Ordered(AllInserts(q), false);
            var source := out[i].managedBy.value;
            Stays(rows, q, source) || exists j :: 0 <= j < i && out[j].id == source
  {
    var all := AllInserts(q);
    var out := Ordered(all, false);
    AdditionsAreForest(rows, q);
    OrderedIsInOrder(all, false);
    OrderedKeeps(all, false);
    var a := out[i];
    assert a in all;
    AddsIs(q, a);
    assert GroundedOne(rows, q, a);
    if !Stays(rows, q, a.managedBy.value) {
      var s :| Adds(q, s) && s.id == a.managedBy.value && Tier(s) < Tier(a);
      AddsIs(q, s);
      assert s in out;
      var j :| 0 <= j < |out| && out[j] == s;
      assert HangsOff(a, s);
      assert i < j ==> !Precedes(out[j], out[i], false);
      assert j != i;
    }
  }
}
