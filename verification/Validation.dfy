/** Checking a changed zone: only the names a change reached, plus what a new
    delegation hides, against checking all of it. */
module Validation {
  import opened Dns
  import opened Store

  /** A zone as validation sees it: its apex, and for a reverse zone which names
      lie outside the network it answers for. */
  datatype Cut = Cut(apex: Name, outside: Name -> bool)

  function OwnedBy(rs: set<Record>, n: Name): set<Record>
  {
    set r | r in rs && r.name == n
  }

  predicate HasNs(rs: set<Record>, n: Name)
  {
    exists r :: r in rs && r.name == n && r.typ == NS
  }

  predicate Owns(rs: set<Record>, n: Name)
  {
    exists r :: r in rs && r.name == n
  }

  // ------------------------------------------------------------- one owner name

  /** Two records of one RRset share its TTL and not its data. */
  predicate Coexist(a: Record, b: Record)
  {
    SetKey(a) == SetKey(b) ==> a.ttl == b.ttl && a.data != b.data && a.typ != CNAME
  }

  /** The records of one name can live together there. */
  predicate OwnerOk(z: Cut, n: Name, owned: set<Record>)
  {
    && IsSubDomainOf(n, z.apex)
    && (forall r :: r in owned ==> ValidRecord(r))
    && (forall a, b :: a in owned && b in owned && a != b ==> Coexist(a, b))
    && (forall a, b :: a in owned && b in owned && a.typ == CNAME ==> b.typ == CNAME)
    && (forall r :: r in owned ==> (r.typ == CNAME ==> n != z.apex) && (r.typ == PTR ==> !z.outside(n)))
  }

  /** What may live at and below the closest delegation. */
  predicate UnderOk(n: Name, owned: set<Record>, point: Option<Name>)
  {
    point.Some? ==> forall r :: r in owned ==> if point.value == n then r.typ == NS else r.typ == A || r.typ == AAAA
  }

  /** The nearest name at or above this one that the zone delegates away; the walk
      stops before the apex, whose NS records are the zone's own. */
  function Closest(z: Cut, rs: set<Record>, n: Name): Option<Name>
  {
    if n == z.apex then None
    else if HasNs(rs, n) then Some(n)
    else if n == [] then None
    else Closest(z, rs, n[1..])
  }

  predicate NameOk(z: Cut, rs: set<Record>, n: Name)
  {
    && OwnerOk(z, n, OwnedBy(rs, n))
    && UnderOk(n, OwnedBy(rs, n), Closest(z, rs, n))
    && (n == z.apex ==> HasNs(rs, n))
  }

  // -------------------------------------------------------------- a whole zone

  function Delegations(z: Cut, rs: set<Record>): set<Name>
  {
    set r | r in rs && r.typ == NS && r.name != z.apex :: r.name
  }

  /** The nearest of these points at or above a name, looked for up to the root. */
  function Nearest(points: set<Name>, n: Name): Option<Name>
  {
    if n in points then Some(n) else if n == [] then None else Nearest(points, n[1..])
  }

  /** The check a complete set of records has to pass. */
  predicate WholeZoneOk(z: Cut, rs: set<Record>)
  {
    && (forall r :: r in rs ==> IsSubDomainOf(r.name, z.apex))
    && (forall r :: r in rs ==> OwnerOk(z, r.name, OwnedBy(rs, r.name)))
    && HasNs(rs, z.apex)
    && (forall r :: r in rs ==> UnderOk(r.name, OwnedBy(rs, r.name), Nearest(Delegations(z, rs), r.name)))
  }

  /** Name by name, as the zone stands. */
  ghost predicate ZoneOk(z: Cut, rs: set<Record>)
  {
    (forall r :: r in rs ==> NameOk(z, rs, r.name)) && HasNs(rs, z.apex)
  }

  lemma ShortIsApex(n: Name, apex: Name)
    requires IsSubDomainOf(n, apex) && |n| <= |apex|
    ensures n == apex
  {
    assert n[0..] == n;
  }

  lemma NoPointAbove(z: Cut, rs: set<Record>, n: Name)
    requires |n| <= |z.apex| && forall r :: r in rs ==> IsSubDomainOf(r.name, z.apex)
    ensures Nearest(Delegations(z, rs), n) == None
  {
    forall r | r in rs && |r.name| <= |z.apex|
      ensures r.name == z.apex
    {
      ShortIsApex(r.name, z.apex);
    }
    assert n !in Delegations(z, rs);
    if n != [] { NoPointAbove(z, rs, n[1..]); }
  }

  /** Looking up to the apex finds what looking up to the root finds. */
  lemma {:induction false} ClosestIsNearest(z: Cut, rs: set<Record>, n: Name)
    requires forall r :: r in rs ==> IsSubDomainOf(r.name, z.apex)
    ensures Closest(z, rs, n) == Nearest(Delegations(z, rs), n)
  {
    if n == z.apex {
      NoPointAbove(z, rs, n);
    } else if HasNs(rs, n) {
      assert n in Delegations(z, rs);
    } else {
      assert n !in Delegations(z, rs);
      if n != [] { ClosestIsNearest(z, rs, n[1..]); }
    }
  }

  lemma WholeZoneIff(z: Cut, rs: set<Record>)
    ensures WholeZoneOk(z, rs) <==> ZoneOk(z, rs)
  {
    if forall r :: r in rs ==> IsSubDomainOf(r.name, z.apex) {
      forall n
        ensures Closest(z, rs, n) == Nearest(Delegations(z, rs), n)
      {
        ClosestIsNearest(z, rs, n);
      }
    }
  }

  // --------------------------------------------- what a change can have broken

  /** Outside the touched names the two hold the same. */
  ghost predicate SameOutside(before: set<Record>, after: set<Record>, touched: set<Name>)
  {
    forall n :: n !in touched ==> OwnedBy(before, n) == OwnedBy(after, n)
  }

  lemma SameNs(before: set<Record>, after: set<Record>, n: Name)
    requires OwnedBy(before, n) == OwnedBy(after, n)
    ensures HasNs(before, n) <==> HasNs(after, n)
    ensures Owns(before, n) <==> Owns(after, n)
  {
    if HasNs(before, n) {
      var r :| r in before && r.name == n && r.typ == NS;
      assert r in OwnedBy(before, n);
    }
    if HasNs(after, n) {
      var r :| r in after && r.name == n && r.typ == NS;
      assert r in OwnedBy(after, n);
    }
    if Owns(before, n) {
      var r :| r in before && r.name == n;
      assert r in OwnedBy(before, n);
    }
    if Owns(after, n) {
      var r :| r in after && r.name == n;
      assert r in OwnedBy(after, n);
    }
  }

  lemma {:induction false} ClosestIsAbove(z: Cut, rs: set<Record>, n: Name)
    requires Closest(z, rs, n).Some?
    ensures var p := Closest(z, rs, n).value;
            p != z.apex && HasNs(rs, p) && IsSubDomainOf(n, p)
  {
    if n == z.apex || HasNs(rs, n) {
    } else {
      ClosestIsAbove(z, rs, n[1..]);
      var p := Closest(z, rs, n).value;
      assert n[|n| - |p|..] == n[1..][|n| - 1 - |p|..];
    }
  }

  /** A delegation that was not touched was one before, and a closer one that is
      gone was touched. */
  lemma {:induction false} ClosestMoved(z: Cut, before: set<Record>, after: set<Record>, touched: set<Name>, n: Name)
    requires SameOutside(before, after, touched)
    requires Closest(z, after, n).Some? && Closest(z, after, n).value !in touched
    ensures var was, now := Closest(z, before, n), Closest(z, after, n);
            was == now || (was.Some? && was.value in touched && |now.value| < |was.value| <= |n|)
  {
    if n == z.apex {
    } else {
      if n !in touched { SameNs(before, after, n); }
      if !HasNs(after, n) {
        ClosestIsAbove(z, after, n);
        if !HasNs(before, n) {
          ClosestMoved(z, before, after, touched, n[1..]);
        } else {
          var p := Closest(z, after, n).value;
          ClosestIsAbove(z, after, n[1..]);
        }
      }
    }
  }

  /** A name outside the change stays in order, unless a touched name above it now
      delegates. */
  lemma UntouchedStaysOk(z: Cut, before: set<Record>, after: set<Record>, touched: set<Name>, n: Name)
    requires SameOutside(before, after, touched) && n !in touched && NameOk(z, before, n)
    requires Closest(z, after, n).None? || Closest(z, after, n).value !in touched
    ensures NameOk(z, after, n)
  {
    SameNs(before, after, n);
    if Closest(z, after, n).Some? {
      ClosestMoved(z, before, after, touched, n);
    }
  }

  // ------------------------------------------------------ the incremental check

  /** What reading a zone below a name returns: every record at or below it, with
      those of one name together. */
  ghost predicate Lists(rs: set<Record>, n: Name, listing: seq<Record>)
  {
    forall r :: r in listing <==> r in rs && IsSubDomainOf(r.name, n)
  }

  /** The owner names strictly below a name. */
  method NamesUnder(n: Name, listing: seq<Record>, ghost rs: set<Record>) returns (out: seq<Name>)
    requires Lists(rs, n, listing)
    ensures forall m :: m in out <==> m != n && Owns(rs, m) && IsSubDomainOf(m, n)
  {
    out := [];
    for i := 0 to |listing|
      invariant forall m :: m in out <==> m != n && exists j :: 0 <= j < i && listing[j].name == m
    {
      var name := listing[i].name;
      if name != n && (out == [] || out[|out| - 1] != name) {
        out := out + [name];
      }
    }
    forall m
      ensures (exists j :: 0 <= j < |listing| && listing[j].name == m) <==> Owns(rs, m) && IsSubDomainOf(m, n)
    {
      if j :| 0 <= j < |listing| && listing[j].name == m {
        assert listing[j] in listing;
      }
      if Owns(rs, m) && IsSubDomainOf(m, n) {
        var r :| r in rs && r.name == m;
        assert r in listing;
      }
    }
  }

  method FindClosest(z: Cut, rs: set<Record>, name: Name) returns (point: Option<Name>)
    ensures point == Closest(z, rs, name)
  {
    var n := name;
    while n != z.apex
      invariant Closest(z, rs, n) == Closest(z, rs, name)
      decreases |n|
    {
      if HasNs(rs, n) { return Some(n); }
      if n == [] { return None; }
      n := n[1..];
    }
    return None;
  }

  /** Whether a name not looked at before is in order, and whether it delegates. */
  method ValidateName(z: Cut, rs: set<Record>, n: Name, seen: set<Name>) returns (ok: bool, delegates: bool, now: set<Name>)
    ensures now == seen + {n}
    ensures ok <==> n in seen || NameOk(z, rs, n)
    ensures ok ==> (delegates <==> n !in seen && n != z.apex && HasNs(rs, n))
  {
    now := seen + {n};
    ok, delegates := true, false;
    if n in seen { return; }
    var owned := OwnedBy(rs, n);
    if !OwnerOk(z, n, owned) { ok := false; return; }
    var point := FindClosest(z, rs, n);
    if !UnderOk(n, owned, point) { ok := false; return; }
    if n != z.apex {
      delegates := HasNs(rs, n);
    } else {
      ok := HasNs(rs, n);
    }
  }

  /** Every name looked at is in order, and with a delegation all that is below it. */
  ghost predicate Swept(z: Cut, rs: set<Record>, seen: set<Name>)
  {
    && (forall n :: n in seen ==> NameOk(z, rs, n))
    && (forall p, m :: p in seen && p != z.apex && HasNs(rs, p) && Owns(rs, m) && IsSubDomainOf(m, p) ==> m in seen)
  }

  method ValidateBelow(z: Cut, rs: set<Record>, below: seq<Name>, seen: set<Name>) returns (ok: bool, now: set<Name>, ghost bad: Name)
    requires forall n :: n in seen ==> NameOk(z, rs, n)
    ensures ok ==> now == seen + (set m | m in below) && forall n :: n in now ==> NameOk(z, rs, n)
    ensures !ok ==> bad in below && !NameOk(z, rs, bad)
  {
    now, bad := seen, [];
    for i := 0 to |below|
      invariant now == seen + (set m | m in below[..i])
      invariant forall n :: n in now ==> NameOk(z, rs, n)
    {
      var delegates;
      assert below[..i + 1] == below[..i] + [below[i]];
      ok, delegates, now := ValidateName(z, rs, below[i], now);
      if !ok {
        bad := below[i];
        return;
      }
    }
    assert below[..|below|] == below;
    ok := true;
  }

  lemma SubDomainTrans(m: Name, p: Name, d: Name)
    requires IsSubDomainOf(m, p) && IsSubDomainOf(p, d)
    ensures IsSubDomainOf(m, d)
  {
    assert m[|m| - |d|..] == m[|m| - |p|..][|p| - |d|..];
  }

  /** Sweeping one more name and what it hides. */
  lemma SweptMore(z: Cut, rs: set<Record>, seen: set<Name>, n: Name, now: set<Name>)
    requires Swept(z, rs, seen) && n in now && seen <= now && forall m :: m in now ==> NameOk(z, rs, m)
    requires forall m :: m in now && m !in seen && m != n ==> IsSubDomainOf(m, n)
    requires n != z.apex && HasNs(rs, n) && n !in seen ==> forall m :: Owns(rs, m) && IsSubDomainOf(m, n) ==> m in now
    requires !(n != z.apex && HasNs(rs, n)) || n in seen ==> now == seen + {n}
    ensures Swept(z, rs, now)
  {
    forall p, m | p in now && p != z.apex && HasNs(rs, p) && Owns(rs, m) && IsSubDomainOf(m, p)
      ensures m in now
    {
      if p !in seen && p != n {
        SubDomainTrans(m, p, n);
      }
    }
  }

  /** A name is in order, and with a delegation there every name below it. */
  ghost predicate ReachOk(z: Cut, rs: set<Record>, n: Name)
  {
    && NameOk(z, rs, n)
    && (n != z.apex && HasNs(rs, n) ==> forall m :: Owns(rs, m) && IsSubDomainOf(m, n) ==> NameOk(z, rs, m))
  }

  /** Checks what a change reached. The records below a name come from the store. */
  method ValidateTouched(z: Cut, rs: set<Record>, names: seq<Name>, under: Name -> seq<Record>)
    returns (ok: bool, ghost bad: Name, ghost seen: set<Name>)
    requires forall n :: Lists(rs, n, under(n))
    ensures ok <==> forall n :: n in names ==> ReachOk(z, rs, n)
    ensures ok ==> Swept(z, rs, seen) && forall n :: n in names ==> n in seen
    ensures !ok ==> !NameOk(z, rs, bad) && (bad in names || Owns(rs, bad))
  {
    var known: set<Name> := {};
    bad, seen := [], {};
    for i := 0 to |names|
      invariant Swept(z, rs, known) && forall j :: 0 <= j < i ==> names[j] in known
    {
      var delegates, now;
      ok, delegates, now := ValidateName(z, rs, names[i], known);
      if !ok {
        bad := names[i];
        assert !ReachOk(z, rs, names[i]);
        return;
      }
      if delegates {
        var below := NamesUnder(names[i], under(names[i]), rs);
        ok, now, bad := ValidateBelow(z, rs, below, now);
        if !ok {
          assert !ReachOk(z, rs, names[i]);
          return;
        }
      }
      SweptMore(z, rs, known, names[i], now);
      known := now;
    }
    ok, seen := true, known;
  }

  // ------------------------------------------------------------------ exactness

  /** A change to a zone, as the touched names bound it. */
  ghost predicate Touches(before: set<Record>, after: set<Record>, names: seq<Name>)
  {
    && SameOutside(before, after, set n | n in names)
    && forall n :: n in names ==> Owns(before, n) || Owns(after, n)
  }

  lemma SweptIsEnough(z: Cut, before: set<Record>, after: set<Record>, names: seq<Name>, seen: set<Name>)
    requires ZoneOk(z, before) && Touches(before, after, names)
    requires Swept(z, after, seen) && forall n :: n in names ==> n in seen
    ensures ZoneOk(z, after)
  {
    var touched := set n | n in names;
    forall r | r in after
      ensures NameOk(z, after, r.name)
    {
      var n := r.name;
      if n !in seen {
        SameNs(before, after, n);
        assert Owns(after, n);
        var s :| s in before && s.name == n;
        if Closest(z, after, n).Some? {
          ClosestIsAbove(z, after, n);
        }
        UntouchedStaysOk(z, before, after, touched, n);
      }
    }
    if z.apex !in touched {
      SameNs(before, after, z.apex);
    } else {
      assert NameOk(z, after, z.apex);
    }
  }

  lemma FaultIsReal(z: Cut, before: set<Record>, after: set<Record>, names: seq<Name>, bad: Name)
    requires ZoneOk(z, before) && Touches(before, after, names)
    requires !NameOk(z, after, bad) && (bad in names || Owns(after, bad))
    ensures !ZoneOk(z, after)
  {
    if Owns(after, bad) {
      var r :| r in after && r.name == bad;
      assert !NameOk(z, after, r.name);
    } else {
      var r :| r in before && r.name == bad;
      assert NameOk(z, before, r.name);
      assert OwnedBy(after, bad) == {};
      assert !HasNs(after, z.apex);
    }
  }

  /** So a zone that was in order is if and only if what the change reached is. */
  lemma ReachedIff(z: Cut, before: set<Record>, after: set<Record>, names: seq<Name>)
    requires WholeZoneOk(z, before) && Touches(before, after, names)
    ensures WholeZoneOk(z, after) <==> forall n :: n in names ==> ReachOk(z, after, n)
  {
    WholeZoneIff(z, before);
    WholeZoneIff(z, after);
    if ZoneOk(z, after) {
      forall n | n in names
        ensures ReachOk(z, after, n)
      {
        if !NameOk(z, after, n) { FaultIsReal(z, before, after, names, n); }
      }
    }
    if forall n :: n in names ==> ReachOk(z, after, n) {
      ReachedIsEnough(z, before, after, names);
    }
  }

  lemma ReachedIsEnough(z: Cut, before: set<Record>, after: set<Record>, names: seq<Name>)
    requires ZoneOk(z, before) && Touches(before, after, names) && forall n :: n in names ==> ReachOk(z, after, n)
    ensures ZoneOk(z, after)
  {
    var below := set r, p | r in after && p in names && p != z.apex && HasNs(after, p) && IsSubDomainOf(r.name, p) :: r.name;
    var seen := (set n | n in names) + below;
    forall p, m | p in seen && p != z.apex && HasNs(after, p) && Owns(after, m) && IsSubDomainOf(m, p)
      ensures m in seen
    {
      if p !in names {
        var r, d :| r in after && d in names && d != z.apex && HasNs(after, d) && IsSubDomainOf(r.name, d) && r.name == p;
        SubDomainTrans(m, p, d);
      }
    }
    assert Swept(z, after, seen);
    SweptIsEnough(z, before, after, names, seen);
  }

  /** In a zone that was in order, checking what the change reached accepts exactly
      what checking all of it would accept. */
  method Validate(z: Cut, ghost before: set<Record>, after: set<Record>, names: seq<Name>, under: Name -> seq<Record>)
    returns (ok: bool)
    requires WholeZoneOk(z, before) && Touches(before, after, names) && forall n :: Lists(after, n, under(n))
    ensures ok <==> WholeZoneOk(z, after)
  {
    WholeZoneIff(z, before);
    WholeZoneIff(z, after);
    ghost var bad, seen;
    ok, bad, seen := ValidateTouched(z, after, names, under);
    if ok {
      SweptIsEnough(z, before, after, names, seen);
    } else {
      FaultIsReal(z, before, after, names, bad);
    }
  }
}
