/** Reverse automation at work on a change: removals first and in full, then what
    the changed and new addresses imply. */
module Expansion {
  import opened Dns
  import opened Changes
  import opened Ordering
  import opened Store
  import opened Write
  import opened Carry
  import opened Upkeep
  import opened Queues
  import opened Reverse
  import opened Generation

  // ------------------------------------------------------------ the command

  /** Only these can have anything hanging off them. */
  predicate CanGenerate(t: RRType)
  {
    t == A || t == AAAA || t == PTR
  }

  /** The two versions of a record imply the same reverse entry. */
  predicate SameReverse(before: Record, after: Record)
  {
    var b, a := AddressOf(before), AddressOf(after);
    if b.None? || a.None? then b.None? && a.None?
    else b == a && before.name == after.name && before.disabled == after.disabled
  }

  predicate Detaches(u: Update)
  {
    u.after == u.before.(managedBy := None, managedKind := None)
  }

  /** An authored record edited, or a generated one detached. */
  predicate EditsOrDetaches(u: Update)
  {
    (u.after.managedBy.None? ==> u.after.managedKind.None?) && (u.before.managedBy.None? || Detaches(u))
  }

  /** What operations on one zone come to: authored records removed, updated and
      added, and generated ones detached, each record named once. Claims come only
      with the policy this model leaves out. */
  ghost predicate Commanded(db: Db, q: Queue, src: ZoneId)
  {
    && WellPlanned(db, q) && q.byZone.Keys == {src}
    && (forall d :: d in q.For(src).deletes ==> d.managedBy.None?)
    && (forall u :: u in q.For(src).updates ==> EditsOrDetaches(u))
    && (forall r :: r in q.For(src).inserts ==> r.managedBy.None? && r.managedKind.None?)
    && q.For(src).claims == []
  }

  lemma OneZoneCommanded(db: Db, z: Zone, c: Changes)
    requires z.id in db.zones && db.zones[z.id] == z && WellQueuedIn(db.rows, z.id, c)
    requires (c.soa.Some? ==> SameSoa(c.soa.value.before, z.soa)) && c.claims == []
    requires forall d :: d in c.deletes ==> d.managedBy.None?
    requires forall u :: u in c.updates ==> EditsOrDetaches(u)
    requires forall r :: r in c.inserts ==> r.managedBy.None? && r.managedKind.None?
    ensures Commanded(db, Put(NO_QUEUE, z, c), z.id)
  {
    var q := Put(NO_QUEUE, z, c);
    PutProper(NO_QUEUE, z, c);
    assert q.byZone.Keys == {z.id};
    assert AsRead(db, q, z.id);
  }

  function DeletedRoots(ds: seq<Record>): set<RecordId>
  {
    set d | d in ds && CanGenerate(d.typ) :: d.id
  }

  function UpdatedRoots(us: seq<Update>): set<RecordId>
  {
    set u | u in us && !SameReverse(u.before, u.after) && CanGenerate(u.before.typ) :: u.before.id
  }

  /** The records whose entries go: those removed, and those whose entry moves. */
  function Roots(c: Changes): set<RecordId>
  {
    DeletedRoots(c.deletes) + UpdatedRoots(c.updates)
  }

  /** None go where the automation is off. */
  function Tops(w: World, src: ZoneId, c: Changes): set<RecordId>
  {
    if w.Automates(src) then Roots(c) else {}
  }

  /** No record the command updates or detaches goes with one of these. */
  ghost predicate NoClash(w: World, src: ZoneId, c: Changes)
  {
    forall u :: u in c.updates ==> u.before.id !in Cascade(w.db.rows, Tops(w, src, c)) - Tops(w, src, c)
  }

  ghost predicate Unclashed(rows: Rows, c: Changes)
  {
    forall u :: u in c.updates ==> u.before.id !in Cascade(rows, Roots(c)) - Roots(c)
  }

  lemma RootsAuthored(db: Db, q: Queue, src: ZoneId)
    requires Commanded(db, q, src)
    ensures Authored(db.rows, Roots(q.For(src)))
  {
    var c := q.For(src);
    Queued(db.rows, q, src);
    forall id | id in Roots(c) && id in db.rows
      ensures db.rows[id].managedBy.None?
    {
      if id in DeletedRoots(c.deletes) {
        var d :| d in c.deletes && d.id == id;
        LeavingIs(c, d);
        LeavingHeld(db.rows, src, c, d);
      } else {
        var u :| u in c.updates && !SameReverse(u.before, u.after) && u.before.id == id;
        LeavingIs(c, u.before);
        LeavingHeld(db.rows, src, c, u.before);
      }
    }
  }

  /** What goes with the roots is named by nothing else in the command. */
  lemma RetiredUnnamed(db: Db, q: Queue, src: ZoneId, out: seq<Record>)
    requires Commanded(db, q, src) && Unclashed(db.rows, q.For(src)) && RetiredAll(db.rows, Roots(q.For(src)), out)
    ensures Unnamed(q, out)
  {
    var c := q.For(src);
    AddedHangs(db.rows, Roots(c));
    forall r | r in out
      ensures r.id !in Ids(Leaving(q.For(r.zone)))
    {
      IdsOf(out, r.id);
      Queued(db.rows, q, r.zone);
      IdsOf(Leaving(q.For(r.zone)), r.id);
      if s :| s in Leaving(q.For(r.zone)) && s.id == r.id {
        LeavingHeld(db.rows, r.zone, q.For(r.zone), s);
        LeavingIs(q.For(r.zone), s);
      }
    }
  }

  /** Every removed record that something hangs off is looked below: the automation
      is on, and the record of a type known to generate. */
  ghost predicate Known(rows: Rows, ds: seq<Record>, on: bool)
  {
    forall d :: d in ds && Below(rows, {d.id}) != {} ==> on && CanGenerate(d.typ)
  }

  lemma BelowIsUnion(rows: Rows, ids: set<RecordId>, x: RecordId)
    requires x in Below(rows, ids)
    ensures rows[x].managedBy.value in ids && x in Below(rows, {rows[x].managedBy.value})
  {
  }

  lemma KnownIsClosed(rows: Rows, ds: seq<Record>, on: bool, roots: set<RecordId>, d: set<RecordId>)
    requires Authored(rows, roots) && Known(rows, ds, on) && (on ==> DeletedRoots(ds) <= roots)
    requires d == Ids(ds) + (Cascade(rows, roots) - roots)
    ensures Closed(rows, d)
  {
    forall x | x in Below(rows, d)
      ensures x in d
    {
      BelowIsUnion(rows, d, x);
      var y := rows[x].managedBy.value;
      if y in Ids(ds) {
        IdsOf(ds, y);
        var r :| r in ds && r.id == y;
        assert x in Below(rows, {r.id});
        assert y in DeletedRoots(ds);
      }
      assert y in Cascade(rows, roots);
      assert x in Below(rows, Cascade(rows, roots));
    }
  }

  lemma ClosedIsKnown(rows: Rows, ds: seq<Record>, on: bool, roots: set<RecordId>, d: set<RecordId>)
    requires Authored(rows, Ids(ds)) && Ids(ds) <= rows.Keys && UniqueIds(ds)
    requires Ids(ds) * roots <= DeletedRoots(ds) && (!on ==> roots == {})
    requires d == Ids(ds) + (Cascade(rows, roots) - roots) && Closed(rows, d)
    ensures Known(rows, ds, on)
  {
    AddedHangs(rows, roots);
    forall r | r in ds && Below(rows, {r.id}) != {}
      ensures on && CanGenerate(r.typ)
    {
      IdsOf(ds, r.id);
      var x :| x in Below(rows, {r.id});
      assert x in Below(rows, d);
      assert x in Cascade(rows, roots) - roots;
      assert r.id in Cascade(rows, roots);
      assert r.id in roots;
      assert r.id in DeletedRoots(ds);
      var s :| s in ds && CanGenerate(s.typ) && s.id == r.id;
      var i :| 0 <= i < |ds| && ds[i] == r;
      var j :| 0 <= j < |ds| && ds[j] == s;
      UniqueApart(ds, i, j);
    }
  }

  // ------------------------------------------------- what expansion comes to

  /** The queue once the roots' entries are queued for removal. */
  ghost predicate Swept(db: Db, q: Queue, src: ZoneId, mid: Queue, out: seq<Record>)
  {
    && RetiredAll(db.rows, Roots(q.For(src)), out)
    && mid == RemoveEach(db, q, out)
  }

  lemma SweptInShape(db: Db, q: Queue, src: ZoneId, mid: Queue, out: seq<Record>, mint: RecordId)
    requires Integrity(db) && Commanded(db, q, src) && Unclashed(db.rows, q.For(src)) && Unused(db.rows, q, mint)
    requires Swept(db, q, src, mid, out)
    ensures InShape(db, mid, mint) && Lost(q, mid, out)
  {
    RetiredUnnamed(db, q, src, out);
    RemoveEachPlanned(db, q, out);
    forall r | Adds(mid, r)
      ensures Adds(q, r) && r.managedBy.None?
    {
      var z :| z in mid.byZone && r in mid.byZone[z].inserts;
      assert mid.For(z).inserts == q.For(z).inserts;
    }
    forall r | Adds(mid, r)
      ensures GroundedOne(db.rows, mid, r)
    {
    }
  }

  lemma UpdatedStays(db: Db, q: Queue, src: ZoneId, mid: Queue, out: seq<Record>, u: Update)
    requires Integrity(db) && Commanded(db, q, src) && Unclashed(db.rows, q.For(src)) && Swept(db, q, src, mid, out) && Lost(q, mid, out)
    requires u in q.For(src).updates
    ensures Stays(db.rows, mid, u.after.id)
  {
    var c := q.For(src);
    Queued(db.rows, q, src);
    LeavingIs(c, u.before);
    LeavingHeld(db.rows, src, c, u.before);
    UpdatedOnce(db.rows, src, c, u);
    forall d | Removes(mid, d)
      ensures d.id != u.after.id
    {
      if d in out {
        IdsOf(out, d.id);
      } else {
        var z :| z in q.byZone && d in q.byZone[z].deletes;
        assert z == src;
      }
    }
  }

  /** An updated record can be generated from. */
  lemma UpdateSettled(db: Db, q: Queue, src: ZoneId, mid: Queue, out: seq<Record>, u: Update)
    requires Integrity(db) && Commanded(db, q, src) && Unclashed(db.rows, q.For(src)) && Swept(db, q, src, mid, out) && Lost(q, mid, out)
    requires u in q.For(src).updates && Reverses(u.after)
    ensures Settled(db.rows, mid, u.after)
  {
    UpdatedStays(db, q, src, mid, out, u);
  }

  /** So can an added one, and everything added since is still there. */
  lemma InsertSettled(db: Db, q: Queue, src: ZoneId, mid: Queue, out: seq<Record>, r: Record)
    requires Commanded(db, q, src) && Lost(q, mid, out) && r in q.For(src).inserts
    ensures Settled(db.rows, mid, r)
  {
    assert mid.For(src).inserts == q.For(src).inserts;
    assert src in mid.byZone && r in mid.byZone[src].inserts;
  }

  /** The records a command generates from: those whose entry moves, as they will
      be, and those it adds. */
  function Movers(us: seq<Update>): seq<Record>
  {
    if us == [] then []
    else
      var u := us[|us| - 1];
      Movers(us[..|us| - 1]) + if SameReverse(u.before, u.after) then [] else [u.after]
  }

  function SourcesOf(c: Changes): seq<Record>
  {
    Movers(c.updates) + c.inserts
  }

  function Givers(w: World, src: ZoneId, c: Changes): seq<Record>
  {
    if w.Automates(src) then SourcesOf(c) else []
  }

  lemma MoversMore(us: seq<Update>, i: nat)
    requires i < |us|
    ensures var front, u := Movers(us[..i]), us[i];
            Movers(us[..i + 1]) == if SameReverse(u.before, u.after) then front else front + [u.after]
  {
    assert us[..i + 1][..i] == us[..i];
    assert Movers(us[..i]) + [] == Movers(us[..i]);
  }

  lemma {:induction false} MoversAre(us: seq<Update>, s: Record)
    requires s in Movers(us)
    ensures exists u :: u in us && u.after == s && !SameReverse(u.before, u.after)
  {
    var front, u := us[..|us| - 1], us[|us| - 1];
    if s in Movers(front) {
      MoversAre(front, s);
      var v :| v in front && v.after == s && !SameReverse(v.before, v.after);
      assert v in us;
    } else {
      assert u in us;
    }
  }

  lemma SourcesSettled(db: Db, q: Queue, src: ZoneId, mid: Queue, out: seq<Record>, s: Record)
    requires Integrity(db) && Commanded(db, q, src) && Unclashed(db.rows, q.For(src)) && Swept(db, q, src, mid, out) && Lost(q, mid, out)
    requires s in SourcesOf(q.For(src)) && Reverses(s)
    ensures Settled(db.rows, mid, s)
  {
    if s in q.For(src).inserts {
      InsertSettled(db, q, src, mid, out, s);
    } else {
      MoversAre(q.For(src).updates, s);
      var u :| u in q.For(src).updates && u.after == s;
      UpdateSettled(db, q, src, mid, out, u);
    }
  }

  /** What the command asked for is still asked for. */
  ghost predicate Keeps(q: Queue, next: Queue)
  {
    forall z {:trigger KeepsIn(q.For(z), next.For(z))} :: KeepsIn(q.For(z), next.For(z))
  }

  ghost predicate KeepsIn(c: Changes, next: Changes)
  {
    next.updates == c.updates && next.soa == c.soa && next.claims == c.claims && c.inserts <= next.inserts
  }

  /** A command with its reverse entries: it removes what it did and everything below
      its roots, updates what it did, and adds what it did and what the records it
      moves or adds ask for, each of which has its answer then. */
  ghost predicate Expanded(w: World, policy: Policy, q: Queue, src: ZoneId, next: Queue)
  {
    var c := q.For(src);
    && WellPlanned(w.db, next) && Grounded(w.db.rows, next)
    && Ids(AllDeletes(next)) == Ids(c.deletes) + (Cascade(w.db.rows, Tops(w, src, c)) - Tops(w, src, c))
    && Keeps(q, next)
    && (forall r {:trigger Adds(next, r)} :: Adds(next, r) ==> Adds(q, r) || ImpliedBySome(w, next, Givers(w, src, c), r))
    && (forall s :: s in Givers(w, src, c) ==> Answered(w, policy, next, s))
  }

  lemma SweptKeeps(q: Queue, mid: Queue, out: seq<Record>, next: Queue)
    requires Lost(q, mid, out) && OnlyAdded(mid, next)
    ensures Keeps(q, next)
  {
    forall z
      ensures KeepsIn(q.For(z), next.For(z))
    {
      assert OnlyAddedIn(mid.For(z), next.For(z));
    }
  }

  lemma ExpandedDeletes(db: Db, q: Queue, src: ZoneId, mid: Queue, out: seq<Record>, next: Queue)
    requires Commanded(db, q, src) && Lost(q, mid, out) && next.Proper()
    requires forall d :: Removes(mid, d) <==> Removes(next, d)
    ensures Ids(AllDeletes(next)) == Ids(q.For(src).deletes) + Ids(out)
  {
    forall id
      ensures id in Ids(AllDeletes(next)) <==> id in Ids(q.For(src).deletes) + Ids(out)
    {
      IdsOf(AllDeletes(next), id);
      IdsOf(q.For(src).deletes, id);
      IdsOf(out, id);
      forall d
        ensures d in AllDeletes(next) <==> d in q.For(src).deletes || d in out
      {
        RemovesIs(next, d);
        if z :| z in q.byZone && d in q.byZone[z].deletes {
          assert z == src;
        }
        if d in q.For(src).deletes {
          assert src in q.byZone;
        }
      }
    }
  }

  lemma DeletesFirst(db: Db, q: Queue, src: ZoneId)
    requires Integrity(db) && Commanded(db, q, src)
    ensures Authored(db.rows, Ids(q.For(src).deletes)) && Ids(q.For(src).deletes) <= db.rows.Keys
    ensures UniqueIds(q.For(src).deletes)
    ensures Ids(q.For(src).deletes) * Roots(q.For(src)) <= DeletedRoots(q.For(src).deletes)
  {
    var c := q.For(src);
    Queued(db.rows, q, src);
    forall i | 0 <= i < |c.deletes|
      ensures c.deletes[i].id in db.rows && db.rows[c.deletes[i].id] == c.deletes[i]
    {
      assert Leaving(c)[i] == c.deletes[i];
    }
    forall i, j | 0 <= i < j < |c.deletes|
      ensures c.deletes[i].id != c.deletes[j].id
    {
      assert Leaving(c)[i] == c.deletes[i] && Leaving(c)[j] == c.deletes[j];
    }
    forall id | id in Ids(c.deletes) * Roots(c)
      ensures id in DeletedRoots(c.deletes)
    {
      if id in UpdatedRoots(c.updates) {
        var u :| u in c.updates && u.before.id == id;
        UpdatedOnce(db.rows, src, c, u);
        IdsOf(c.deletes, id);
      }
    }
  }

  /** The removals of an expanded command are closed exactly when every removed record
      that has anything hanging off it is looked below. */
  lemma ExpandedClosedIff(w: World, policy: Policy, q: Queue, src: ZoneId, next: Queue)
    requires Integrity(w.db) && Commanded(w.db, q, src) && Expanded(w, policy, q, src, next)
    ensures Closed(w.db.rows, Ids(AllDeletes(next))) <==> Known(w.db.rows, q.For(src).deletes, w.Automates(src))
  {
    var ds, roots, on := q.For(src).deletes, Tops(w, src, q.For(src)), w.Automates(src);
    DeletesFirst(w.db, q, src);
    RootsAuthored(w.db, q, src);
    var d := Ids(AllDeletes(next));
    if Known(w.db.rows, ds, on) { KnownIsClosed(w.db.rows, ds, on, roots, d); }
    if Closed(w.db.rows, d) { ClosedIsKnown(w.db.rows, ds, on, roots, d); }
  }

  lemma SweptAdds(q: Queue, mid: Queue, out: seq<Record>, r: Record)
    requires Lost(q, mid, out) && Adds(mid, r)
    ensures Adds(q, r)
  {
    var z :| z in mid.byZone && r in mid.byZone[z].inserts;
    assert mid.For(z).inserts == q.For(z).inserts;
  }

  lemma ExpansionExact(w: World, policy: Policy, q: Queue, src: ZoneId, mid: Queue, out: seq<Record>, mint: RecordId, next: Queue)
    requires w.Valid() && w.Automates(src) && Commanded(w.db, q, src) && NoClash(w, src, q.For(src)) && Unused(w.db.rows, q, mint)
    requires Swept(w.db, q, src, mid, out) && Spread(w, policy, mid, SourcesOf(q.For(src)), mint) == Ok(next)
    ensures Expanded(w, policy, q, src, next)
  {
    var sources := SourcesOf(q.For(src));
    SweptInShape(w.db, q, src, mid, out, mint);
    forall s | s in sources && Reverses(s)
      ensures Settled(w.db.rows, mid, s)
    {
      SourcesSettled(w.db, q, src, mid, out, s);
    }
    SpreadGrew(w, policy, mid, sources, mint, next);
    SpreadGenerates(w, policy, mid, sources, mint, next);
    SameRemoves(mid, next);
    ExpandedDeletes(w.db, q, src, mid, out, next);
    SweptKeeps(q, mid, out, next);
    forall r | Adds(next, r)
      ensures Adds(q, r) || ImpliedBySome(w, next, sources, r)
    {
      if Adds(mid, r) { SweptAdds(q, mid, out, r); }
    }
  }

  /** A command that updates a record its own removals take is expanded all the
      same, and refused when it is written. */
  lemma ClashExpandedRefused(w: World, policy: Policy, q: Queue, src: ZoneId, mid: Queue, out: seq<Record>, mint: RecordId, next: Queue)
    requires w.Valid() && Commanded(w.db, q, src) && !NoClash(w, src, q.For(src))
    requires Swept(w.db, q, src, mid, out) && Spread(w, policy, mid, SourcesOf(q.For(src)), mint) == Ok(next)
    ensures next.Proper() && WriteQueue(w.db, next).Err?
  {
    var c := q.For(src);
    CascadeIsLeast(w.db.rows, {}, {});
    RemoveEachLost(w.db, q, out);
    SpreadGenerates(w, policy, mid, SourcesOf(c), mint, next);
    SweptKeeps(q, mid, out, next);
    SameRemoves(mid, next);
    var u :| u in c.updates && u.before.id in Cascade(w.db.rows, Roots(c)) - Roots(c);
    Queued(w.db.rows, q, src);
    assert InPlace(src, u);
    ExpandedDeletes(w.db, q, src, mid, out, next);
    assert KeepsIn(q.For(src), next.For(src));
    UpdateIsGathered(next, src, u);
    ClashRefused(w.db, next, u);
  }

  lemma UpdateIsGathered(q: Queue, z: ZoneId, u: Update)
    requires q.Proper() && u in q.For(z).updates
    ensures u in AllUpdates(q)
  {
    InUpdates(q, |q.order|, u);
    assert z in q.order;
    var k :| 0 <= k < |q.order| && q.order[k] == z;
    assert u in q.For(q.order[k]).updates;
  }

  /** A command with nothing to retire and nothing to generate from is its own
      expansion; so is any where the automation is off. */
  lemma NothingToExpand(w: World, policy: Policy, q: Queue, src: ZoneId)
    requires Commanded(w.db, q, src) && Tops(w, src, q.For(src)) == {}
    requires forall s :: s in Givers(w, src, q.For(src)) ==> !Reverses(s)
    ensures NoClash(w, src, q.For(src)) && Expanded(w, policy, q, src, q)
  {
    var c := q.For(src);
    CascadeIsLeast(w.db.rows, {}, {});
    forall r | Adds(q, r)
      ensures GroundedOne(w.db.rows, q, r)
    {
      var z :| z in q.byZone && r in q.byZone[z].inserts;
      assert r in q.For(src).inserts;
    }
    forall id
      ensures id in Ids(AllDeletes(q)) <==> id in Ids(c.deletes)
    {
      IdsOf(AllDeletes(q), id);
      IdsOf(c.deletes, id);
      forall d
        ensures d in AllDeletes(q) <==> d in c.deletes
      {
        RemovesIs(q, d);
      }
    }
    forall z
      ensures KeepsIn(q.For(z), q.For(z))
    {
    }
  }

  lemma NothingRetired(rows: Rows)
    ensures RetiredAll(rows, {}, []) && DeletedRoots([]) == {}
  {
    CascadeIsLeast(rows, {}, {});
    assert Ids([]) == {};
  }

  lemma RetiredEither(rows: Rows, roots: set<RecordId>, root: RecordId, can: bool, out: seq<Record>, more: seq<Record>)
    requires RetiredAll(rows, roots, out)
    requires can ==> Authored(rows, roots + {root}) && root !in roots && Retired(rows, root, more)
    requires !can ==> more == []
    ensures RetiredAll(rows, roots + if can then {root} else {}, out + more)
  {
    if can {
      RetiredMore(rows, roots, root, out, more);
    } else {
      assert out + more == out && roots + {} == roots;
    }
  }

  lemma DeletedRootsMore(c: Changes, i: nat)
    requires i < |c.deletes| && UniqueIds(Leaving(c))
    ensures DeletedRoots(c.deletes[..i + 1]) ==
            DeletedRoots(c.deletes[..i]) + if CanGenerate(c.deletes[i].typ) then {c.deletes[i].id} else {}
    ensures c.deletes[i].id !in DeletedRoots(c.deletes[..i])
    ensures CanGenerate(c.deletes[i].typ) ==> c.deletes[i].id in Roots(c)
    ensures DeletedRoots(c.deletes[..i]) <= Roots(c)
  {
    assert c.deletes[..i + 1] == c.deletes[..i] + [c.deletes[i]];
    assert c.deletes[i] in c.deletes;
    forall d | d in c.deletes[..i]
      ensures d.id != c.deletes[i].id && d in c.deletes
    {
      var j :| 0 <= j < i && c.deletes[j] == d;
      assert Leaving(c)[j] == d && Leaving(c)[i] == c.deletes[i];
    }
  }

  lemma UpdatedRootsMore(c: Changes, i: nat)
    requires i < |c.updates| && UniqueIds(Leaving(c))
    ensures var u := c.updates[i];
            UpdatedRoots(c.updates[..i + 1]) == UpdatedRoots(c.updates[..i]) +
              if !SameReverse(u.before, u.after) && CanGenerate(u.before.typ) then {u.before.id} else {}
    ensures c.updates[i].before.id !in DeletedRoots(c.deletes) + UpdatedRoots(c.updates[..i])
    ensures UpdatedRoots(c.updates[..i + 1]) <= Roots(c)
  {
    var n, u := |c.deletes|, c.updates[i];
    assert c.updates[..i + 1] == c.updates[..i] + [u];
    assert u in c.updates;
    assert Leaving(c)[n + i] == u.before;
    forall d | d in c.deletes
      ensures d.id != u.before.id
    {
      var j :| 0 <= j < n && c.deletes[j] == d;
      assert Leaving(c)[j] == d;
    }
    forall v | v in c.updates[..i]
      ensures v.before.id != u.before.id && v in c.updates
    {
      var j :| 0 <= j < i && c.updates[j] == v;
      assert Leaving(c)[n + j] == v.before;
    }
  }

  predicate Moves(u: Update)
  {
    !SameReverse(u.before, u.after) && CanGenerate(u.before.typ)
  }

  ghost function RootsUpTo(c: Changes, i: nat): set<RecordId>
    requires i <= |c.updates|
  {
    DeletedRoots(c.deletes) + UpdatedRoots(c.updates[..i])
  }

  lemma RootsEnds(c: Changes)
    ensures RootsUpTo(c, 0) == DeletedRoots(c.deletes) && RootsUpTo(c, |c.updates|) == Roots(c)
  {
    assert c.updates[..|c.updates|] == c.updates;
  }

  lemma RootsUpToMore(c: Changes, i: nat)
    requires i < |c.updates| && UniqueIds(Leaving(c))
    ensures RootsUpTo(c, i + 1) == RootsUpTo(c, i) + if Moves(c.updates[i]) then {c.updates[i].before.id} else {}
    ensures c.updates[i].before.id !in RootsUpTo(c, i) && RootsUpTo(c, i + 1) <= Roots(c)
  {
    UpdatedRootsMore(c, i);
  }

  lemma Regroup(a: seq<Record>, b: seq<Record>, c: seq<Record>)
    ensures (a + b) + c == a + (b + c)
  {
  }

  /** Part way through the updates: what is retired, besides what was before. */
  ghost predicate SweptTo(db: Db, c: Changes, i: nat, above: seq<Record>, start: Queue, q: Queue, out: seq<Record>)
    requires i <= |c.updates|
  {
    RetiredAll(db.rows, RootsUpTo(c, i), above + out) && q == RemoveEach(db, start, out)
  }

  lemma SweptOneMore(db: Db, c: Changes, i: nat, above: seq<Record>, start: Queue, q: Queue, out: seq<Record>, more: seq<Record>)
    requires i < |c.updates| && UniqueIds(Leaving(c)) && Authored(db.rows, Roots(c)) && SweptTo(db, c, i, above, start, q, out)
    requires if Moves(c.updates[i]) then Retired(db.rows, c.updates[i].before.id, more) else more == []
    ensures SweptTo(db, c, i + 1, above, start, RemoveEach(db, q, more), out + more)
  {
    RootsUpToMore(c, i);
    RetiredEither(db.rows, RootsUpTo(c, i), c.updates[i].before.id, Moves(c.updates[i]), above + out, more);
    Regroup(above, out, more);
    RemoveEachConcat(db, start, out, more);
  }

  class Planner {
    const w: World
    var q: Queue
    var mint: RecordId

    constructor (w: World, q: Queue, mint: RecordId)
      ensures this.w == w && this.q == q && this.mint == mint
    {
      this.w, this.q, this.mint := w, q, mint;
    }

    /** Queues removals, each in the zone its record lives in. */
    method Remove(rs: seq<Record>)
      modifies this`q
      ensures q == RemoveEach(w.db, old(q), rs)
    {
      for i := 0 to |rs|
        invariant q == RemoveEach(w.db, old(q), rs[..i])
      {
        q := RemoveOne(w.db, q, rs[i]);
        RemoveEachMore(w.db, old(q), rs[..i], rs[i]);
        assert rs[..i + 1] == rs[..i] + [rs[i]];
      }
      assert rs[..|rs|] == rs;
    }

    /** Queues everything generated from a record, however deep the chain runs. */
    method RetireBelow(root: RecordId) returns (ghost out: seq<Record>)
      requires w.Valid()
      modifies this`q
      ensures Retired(w.db.rows, root, out)
      ensures q == RemoveEach(w.db, old(q), out)
    {
      var waiting := [root];
      ghost var done: set<RecordId> := {};
      out := [];
      assert SetOf([root]) == {root} by { assert [root][0] == root; }
      while waiting != []
        invariant Sweeping(w.db.rows, root, done, waiting, out)
        invariant q == RemoveEach(w.db, old(q), out)
        decreases Cascade(w.db.rows, {root}) - done
      {
        var next := waiting[0];
        var derived := w.below(next);
        SweepStep(w.db.rows, root, done, waiting, out, derived);
        assert next in SetOf(waiting);
        waiting := waiting[1..] + IdList(derived);
        Remove(derived);
        RemoveEachConcat(w.db, old(q), out, derived);
        out := out + derived;
        done := done + {next};
      }
      SweptAll(w.db.rows, root, done, out);
    }

    method RetireGenerated(source: Record) returns (ghost out: seq<Record>)
      requires w.Valid()
      modifies this`q
      ensures q == RemoveEach(w.db, old(q), out)
      ensures if CanGenerate(source.typ) then Retired(w.db.rows, source.id, out) else out == []
    {
      out := [];
      if CanGenerate(source.typ) {
        out := RetireBelow(source.id);
      }
    }

    method SweepDeletes(c: Changes) returns (ghost out: seq<Record>)
      requires w.Valid() && Authored(w.db.rows, Roots(c)) && UniqueIds(Leaving(c))
      modifies this`q
      ensures RetiredAll(w.db.rows, DeletedRoots(c.deletes), out) && q == RemoveEach(w.db, old(q), out)
    {
      out := [];
      NothingRetired(w.db.rows);
      for i := 0 to |c.deletes|
        invariant RetiredAll(w.db.rows, DeletedRoots(c.deletes[..i]), out) && q == RemoveEach(w.db, old(q), out)
      {
        ghost var more := RetireGenerated(c.deletes[i]);
        DeletedRootsMore(c, i);
        RemoveEachConcat(w.db, old(q), out, more);
        RetiredEither(w.db.rows, DeletedRoots(c.deletes[..i]), c.deletes[i].id, CanGenerate(c.deletes[i].typ), out, more);
        out := out + more;
      }
      assert c.deletes[..|c.deletes|] == c.deletes;
    }

    /** An update that leaves the entry where it is retires nothing. */
    method RetireMoved(u: Update) returns (ghost out: seq<Record>)
      requires w.Valid()
      modifies this`q
      ensures q == RemoveEach(w.db, old(q), out)
      ensures if Moves(u) then Retired(w.db.rows, u.before.id, out) else out == []
    {
      out := [];
      if !SameReverse(u.before, u.after) {
        out := RetireGenerated(u.before);
      }
    }

    method SweepUpdates(c: Changes, ghost above: seq<Record>) returns (ghost out: seq<Record>)
      requires w.Valid() && Authored(w.db.rows, Roots(c)) && UniqueIds(Leaving(c))
      requires RetiredAll(w.db.rows, DeletedRoots(c.deletes), above)
      modifies this`q
      ensures RetiredAll(w.db.rows, Roots(c), above + out) && q == RemoveEach(w.db, old(q), out)
    {
      out := [];
      assert above + [] == above;
      RootsEnds(c);
      for i := 0 to |c.updates|
        invariant SweptTo(w.db, c, i, above, old(q), q, out)
      {
        ghost var before := q;
        ghost var more := RetireMoved(c.updates[i]);
        SweptOneMore(w.db, c, i, above, old(q), before, out, more);
        out := out + more;
      }
    }

    /** Removals first, and in full. */
    method Sweep(c: Changes) returns (ghost out: seq<Record>)
      requires w.Valid() && Authored(w.db.rows, Roots(c)) && UniqueIds(Leaving(c))
      modifies this`q
      ensures RetiredAll(w.db.rows, Roots(c), out) && q == RemoveEach(w.db, old(q), out)
    {
      ghost var above := SweepDeletes(c);
      ghost var below := SweepUpdates(c, above);
      out := above + below;
      RemoveEachConcat(w.db, old(q), above, below);
    }

    /** Queues what an address record implies. */
    method Generate(policy: Policy, source: Record) returns (err: Option<Refusal>)
      modifies this`q, this`mint
      ensures match Generation.Generate(w, policy, old(q), source, old(mint))
              case Ok(next) => err == None && q == next && mint == old(mint) + 2
              case Err(why) => err == Some(why) && policy == Reject && why == Conflict
    {
      err := None;
      var id := mint;
      mint := mint + 2;
      if AddressOf(source).None? || source.managedBy.Some? || source.disabled { return; }
      var addr := AddressOf(source).value;
      if w.zoneFor(addr).None? { return; }
      var rev := w.zoneFor(addr).value;
      var owner := w.ownerIn(rev.id, addr);
      var key := RRsetKey(owner, CLASS_IN, PTR);
      if SetAnswers(w.db.rows, q, rev.id, key, source.name) { return; }
      if SetHeld(w.db.rows, q, rev.id, key) {
        if policy == FirstWins { return; }
        if policy == Reject { return Some(Conflict); }
      }
      q := Enqueue(q, rev, Entry(rev, owner, source, id));
      QueueDelegation(rev, addr, owner, id, id + 1);
    }

    method QueueDelegation(child: Zone, addr: Address, target: Name, entry: RecordId, id: RecordId)
      modifies this`q
      ensures q == Delegate(w, old(q), child, addr, target, entry, id)
    {
      var plain := w.plain(addr);
      if IsSubDomainOf(plain, child.name) || child.name == [] { return; }
      var parent := w.named(child.name[1..]);
      if parent.None? { return; }
      if NameHeld(w.db.rows, q, parent.value.id, plain) { return; }
      q := Enqueue(q, parent.value, Signpost(parent.value, plain, target, entry, id));
    }

    /** Generates from every record whose entry moves. */
    method GenerateMoved(policy: Policy, us: seq<Update>) returns (err: Option<Refusal>)
      modifies this`q, this`mint
      ensures err.None? ==> Reached(w, policy, old(q), old(mint), Movers(us), q, mint)
      ensures err.Some? ==> policy == Reject && err == Some(Conflict)
    {
      err := None;
      for i := 0 to |us|
        invariant err.None? && Reached(w, policy, old(q), old(mint), Movers(us[..i]), q, mint)
      {
        var u := us[i];
        MoversMore(us, i);
        if !SameReverse(u.before, u.after) {
          ghost var before, id := q, mint;
          err := Generate(policy, u.after);
          if err.Some? { return; }
          ReachedMore(w, policy, old(q), old(mint), Movers(us[..i]), before, id, u.after);
        }
      }
      assert us[..|us|] == us;
    }

    /** And from every record added. */
    method GenerateAdded(policy: Policy, rs: seq<Record>, ghost start: Queue, ghost first: RecordId, ghost moved: seq<Record>)
      returns (err: Option<Refusal>)
      requires Reached(w, policy, start, first, moved, q, mint)
      modifies this`q, this`mint
      ensures err.None? ==> Reached(w, policy, start, first, moved + rs, q, mint)
      ensures err.Some? ==> policy == Reject && err == Some(Conflict)
    {
      err := None;
      assert moved + rs[..0] == moved;
      for i := 0 to |rs|
        invariant err.None? && Reached(w, policy, start, first, moved + rs[..i], q, mint)
      {
        assert moved + rs[..i + 1] == moved + rs[..i] + [rs[i]];
        ghost var before, id := q, mint;
        err := Generate(policy, rs[i]);
        if err.Some? { return; }
        ReachedMore(w, policy, start, first, moved + rs[..i], before, id, rs[i]);
      }
      assert rs[..|rs|] == rs;
    }

    /** Adds to a command's changes the reverse entries they imply, where the zone's
        automation is on. */
    method Expand(policy: Policy, src: ZoneId) returns (err: Option<Refusal>)
      requires w.Valid() && Commanded(w.db, q, src) && Unused(w.db.rows, q, mint)
      modifies this`q, this`mint
      ensures err.None? && NoClash(w, src, old(q).For(src)) ==> Expanded(w, policy, old(q), src, q)
      ensures err.None? && !NoClash(w, src, old(q).For(src)) ==> q.Proper() && WriteQueue(w.db, q).Err?
      ensures err.Some? ==> policy == Reject && err == Some(Conflict)
      ensures !w.Automates(src) ==> err.None? && q == old(q)
      ensures err.None? && AllInStep(old(q)) ==> AllInStep(q)
    {
      if !w.Automates(src) {
        NothingToExpand(w, policy, q, src);
        return None;
      }
      var c := q.For(src);
      ghost var was, first := q, mint;
      RootsAuthored(w.db, q, src);
      Queued(w.db.rows, q, src);
      ghost var out := Sweep(c);
      ghost var mid := q;
      err := GenerateMoved(policy, c.updates);
      if err.Some? { return; }
      err := GenerateAdded(policy, c.inserts, mid, first, Movers(c.updates));
      if err.Some? { return; }
      ghost var next := q;
      if AllInStep(was) {
        RemoveEachInStep(w.db, was, out);
        SpreadInStep(w, policy, mid, SourcesOf(c), first);
      }
      if NoClash(w, src, c) {
        ExpansionExact(w, policy, was, src, mid, out, first, next);
      } else {
        ClashExpandedRefused(w, policy, was, src, mid, out, first, next);
      }
    }
  }
}
