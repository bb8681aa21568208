/** The order provenance links require: removals bottom-up, additions top-down. */
module Ordering {
  import opened Dns

  /** a was generated from b. */
  predicate HangsOff(a: Record, b: Record)
  {
    a.managedBy == Some(b.id)
  }

  ghost predicate UniqueIds(rs: seq<Record>)
  {
    forall i, j :: 0 <= i < j < |rs| ==> rs[i].id != rs[j].id
  }

  /** Links lead towards lower ranks, so they form a forest. */
  ghost predicate Ranked(rs: seq<Record>, rank: RecordId -> nat)
  {
    forall a, b :: a in rs && b in rs && HangsOff(a, b) ==> rank(b.id) < rank(a.id)
  }

  ghost predicate Forest(rs: seq<Record>)
  {
    UniqueIds(rs) && exists rank :: Ranked(rs, rank)
  }

  /** Dependents before their source, or sources before their dependents. */
  ghost predicate InOrder(rs: seq<Record>, dependentsFirst: bool)
  {
    forall i, j :: 0 <= i < j < |rs| ==> !Precedes(rs[j], rs[i], dependentsFirst)
  }

  /** a has to come before b. */
  predicate Precedes(a: Record, b: Record, dependentsFirst: bool)
  {
    if dependentsFirst then HangsOff(a, b) else HangsOff(b, a)
  }

  // ----------------------------------------------------------- the counts

  type Counts = map<RecordId, int>

  function At(w: Counts, id: RecordId): int
  {
    if id in w then w[id] else 0
  }

  function Ids(rs: seq<Record>): set<RecordId>
  {
    set i | 0 <= i < |rs| :: rs[i].id
  }

  /** How many of these records hang off an identifier. */
  ghost function Dependents(rs: seq<Record>, id: RecordId): nat
  {
    if rs == [] then 0 else (if rs[0].managedBy == Some(id) then 1 else 0) + Dependents(rs[1..], id)
  }

  lemma {:induction false} DependentsConcat(a: seq<Record>, b: seq<Record>, id: RecordId)
    ensures Dependents(a + b, id) == Dependents(a, id) + Dependents(b, id)
  {
    if a == [] {
      assert a + b == b;
    } else {
      assert (a + b)[1..] == a[1..] + b;
      DependentsConcat(a[1..], b, id);
    }
  }

  lemma {:induction false} NoDependents(rs: seq<Record>, id: RecordId)
    ensures Dependents(rs, id) == 0 <==> forall i :: 0 <= i < |rs| ==> rs[i].managedBy != Some(id)
  {
    if rs != [] {
      NoDependents(rs[1..], id);
      if Dependents(rs, id) == 0 {
        forall i | 0 <= i < |rs|
          ensures rs[i].managedBy != Some(id)
        {
          if i > 0 { assert rs[1..][i - 1] == rs[i]; }
        }
      } else if rs[0].managedBy != Some(id) {
        var i :| 0 <= i < |rs[1..]| && rs[1..][i].managedBy == Some(id);
        assert rs[i + 1].managedBy == Some(id);
      }
    }
  }

  /** Its source is among these records. */
  ghost predicate Waits(rs: seq<Record>, r: Record)
  {
    exists i :: 0 <= i < |rs| && HangsOff(r, rs[i])
  }

  /** The counts say what still has to happen before each remaining record. */
  ghost predicate Right(w: Counts, rest: seq<Record>, ids: set<RecordId>, dependentsFirst: bool)
  {
    if dependentsFirst then
      forall id :: id in ids ==> At(w, id) == Dependents(rest, id)
    else
      forall i :: 0 <= i < |rest| ==> At(w, rest[i].id) == if Waits(rest, rest[i]) then 1 else 0
  }

  // ------------------------------------------------------- the algorithm

  function Bump(w: Counts, id: RecordId, d: int): Counts
  {
    w[id := At(w, id) + d]
  }

  /** What each of the first records still waits for. */
  function Counted(all: seq<Record>, n: nat, queued: set<RecordId>, dependentsFirst: bool): Counts
    requires n <= |all|
  {
    if n == 0 then map[]
    else
      var w, r := Counted(all, n - 1, queued, dependentsFirst), all[n - 1];
      if r.managedBy.Some? && r.managedBy.value in queued then
        Bump(w, if dependentsFirst then r.managedBy.value else r.id, 1)
      else w
  }

  /** Of the first n, whatever hangs off r waits for one thing less. */
  function Released(all: seq<Record>, n: nat, r: Record, w: Counts): Counts
    requires n <= |all|
  {
    if n == 0 then w
    else
      var before := Released(all, n - 1, r, w);
      if HangsOff(all[n - 1], r) then Bump(before, all[n - 1].id, -1) else before
  }

  function Send(all: seq<Record>, r: Record, w: Counts, dependentsFirst: bool): Counts
  {
    if !dependentsFirst then Released(all, |all|, r, w)
    else if r.managedBy.Some? then Bump(w, r.managedBy.value, -1)
    else w
  }

  datatype Pass = Pass(out: seq<Record>, held: seq<Record>, w: Counts)

  /** One round, after its first n records: what waits is held, the rest is out. */
  function Through(all: seq<Record>, n: nat, out: seq<Record>, w: Counts, dependentsFirst: bool): (p: Pass)
    requires n <= |all|
    ensures |p.held| <= n
  {
    if n == 0 then Pass(out, [], w)
    else
      var p, r := Through(all, n - 1, out, w, dependentsFirst), all[n - 1];
      if At(p.w, r.id) > 0 then p.(held := p.held + [r])
      else Pass(p.out + [r], p.held, Send(all, r, p.w, dependentsFirst))
  }

  /** Rounds until nothing is held, or until a round sends nothing out. */
  function Rounds(all: seq<Record>, out: seq<Record>, w: Counts, dependentsFirst: bool): seq<Record>
    decreases |all|
  {
    if all == [] then out
    else
      var p := Through(all, |all|, out, w, dependentsFirst);
      if |p.held| == |all| then p.out + p.held else Rounds(p.held, p.out, p.w, dependentsFirst)
  }

  /** The queued records in the order their links require. */
  function Ordered(all: seq<Record>, dependentsFirst: bool): seq<Record>
  {
    Rounds(all, [], Counted(all, |all|, Ids(all), dependentsFirst), dependentsFirst)
  }

  method Sort(input: seq<Record>, dependentsFirst: bool) returns (out: seq<Record>)
    ensures out == Ordered(input, dependentsFirst)
  {
    var all := input;
    var queued := Ids(all);
    var w: Counts := map[];
    for i := 0 to |all|
      invariant w == Counted(all, i, queued, dependentsFirst)
    {
      var r := all[i];
      if r.managedBy.Some? && r.managedBy.value in queued {
        w := Bump(w, if dependentsFirst then r.managedBy.value else r.id, 1);
      }
    }
    out := [];
    while |all| > 0
      invariant Ordered(input, dependentsFirst) == Rounds(all, out, w, dependentsFirst)
      decreases |all|
    {
      ghost var out0, w0 := out, w;
      var held: seq<Record> := [];
      for i := 0 to |all|
        invariant Pass(out, held, w) == Through(all, i, out0, w0, dependentsFirst)
      {
        var r := all[i];
        if At(w, r.id) > 0 {
          held := held + [r];
        } else {
          out := out + [r];
          w := Settle(all, r, w, dependentsFirst);
        }
      }
      if |held| == |all| {
        return out + held;
      }
      all := held;
    }
  }

  method Settle(all: seq<Record>, r: Record, before: Counts, dependentsFirst: bool) returns (w: Counts)
    ensures w == Send(all, r, before, dependentsFirst)
  {
    w := before;
    if dependentsFirst {
      if r.managedBy.Some? { w := Bump(w, r.managedBy.value, -1); }
      return;
    }
    for i := 0 to |all|
      invariant w == Released(all, i, r, before)
    {
      if HangsOff(all[i], r) { w := Bump(w, all[i].id, -1); }
    }
  }

  // ------------------------------------------------------- the counts are right

  lemma {:induction false} CountedDependents(all: seq<Record>, n: nat, queued: set<RecordId>, id: RecordId)
    requires n <= |all| && id in queued
    ensures At(Counted(all, n, queued, true), id) == Dependents(all[..n], id)
  {
    if n > 0 {
      CountedDependents(all, n - 1, queued, id);
      assert all[..n] == all[..n - 1] + [all[n - 1]];
      DependentsConcat(all[..n - 1], [all[n - 1]], id);
    }
  }

  lemma {:induction false} CountedSources(all: seq<Record>, n: nat, j: nat)
    requires n <= |all| && j < |all| && UniqueIds(all)
    ensures At(Counted(all, n, Ids(all), false), all[j].id) == if j < n && Waits(all, all[j]) then 1 else 0
  {
    if n > 0 {
      CountedSources(all, n - 1, j);
      assert all[n - 1].managedBy.Some? && all[n - 1].managedBy.value in Ids(all) <==> Waits(all, all[n - 1]);
    }
  }

  lemma CountedRight(all: seq<Record>, dependentsFirst: bool)
    requires UniqueIds(all)
    ensures Right(Counted(all, |all|, Ids(all), dependentsFirst), all, Ids(all), dependentsFirst)
  {
    assert all[..|all|] == all;
    forall id | id in Ids(all) { CountedDependents(all, |all|, Ids(all), id); }
    forall j | 0 <= j < |all| { CountedSources(all, |all|, j); }
  }

  lemma {:induction false} ReleasedAt(all: seq<Record>, n: nat, r: Record, w: Counts, j: nat)
    requires n <= |all| && j < |all| && UniqueIds(all)
    ensures At(Released(all, n, r, w), all[j].id) == At(w, all[j].id) - if j < n && HangsOff(all[j], r) then 1 else 0
  {
    if n > 0 { ReleasedAt(all, n - 1, r, w, j); }
  }

  /** Nothing that remains has to come before something already out. */
  ghost predicate NoneLate(out: seq<Record>, rest: seq<Record>, dependentsFirst: bool)
  {
    forall i, j :: 0 <= i < |out| && 0 <= j < |rest| ==> !Precedes(rest[j], out[i], dependentsFirst)
  }

  /** What a round keeps: the order so far, and the counts for what remains. */
  ghost predicate Sound(out: seq<Record>, rest: seq<Record>, w: Counts, ids: set<RecordId>, dependentsFirst: bool)
  {
    && UniqueIds(rest) && Ids(rest) <= ids
    && Right(w, rest, ids, dependentsFirst)
    && InOrder(out, dependentsFirst) && NoneLate(out, rest, dependentsFirst)
  }

  /** A record nothing waits for may go out next. */
  lemma EmittedInOrder(out: seq<Record>, held: seq<Record>, r: Record, tail: seq<Record>, w: Counts,
                       ids: set<RecordId>, dependentsFirst: bool)
    requires Sound(out, held + [r] + tail, w, ids, dependentsFirst) && At(w, r.id) <= 0
    ensures InOrder(out + [r], dependentsFirst) && NoneLate(out + [r], held + tail, dependentsFirst)
    ensures UniqueIds(held + tail) && Ids(held + tail) <= ids
  {
    var rest := held + [r] + tail;
    assert rest[|held|] == r;
    assert forall j :: 0 <= j < |held + tail| ==>
        (held + tail)[j] == rest[if j < |held| then j else j + 1];
    assert forall j :: 0 <= j < |rest| ==> !Precedes(rest[j], r, dependentsFirst) by {
      if dependentsFirst {
        assert r.id in Ids(rest);
        NoDependents(rest, r.id);
      }
    }
  }

  lemma CountsAfterDependent(held: seq<Record>, r: Record, tail: seq<Record>, w: Counts, ids: set<RecordId>)
    requires Right(w, held + [r] + tail, ids, true)
    ensures Right(Send([], r, w, true), held + tail, ids, true)
  {
    forall id | id in ids
      ensures Dependents(held + tail, id) ==
              Dependents(held + [r] + tail, id) - if r.managedBy == Some(id) then 1 else 0
    {
      DependentsConcat(held, tail, id);
      DependentsConcat(held + [r], tail, id);
      DependentsConcat(held, [r], id);
    }
  }

  /** Once its source is out, a record waits no more, and no other is affected. */
  lemma WaitsAfter(held: seq<Record>, r: Record, tail: seq<Record>, x: Record)
    requires UniqueIds(held + [r] + tail)
    ensures Waits(held + tail, x) <==> Waits(held + [r] + tail, x) && !HangsOff(x, r)
  {
    var rest, left := held + [r] + tail, held + tail;
    assert rest[|held|] == r;
    assert forall k :: 0 <= k < |left| ==> left[k] == rest[if k < |held| then k else k + 1];
    if Waits(rest, x) && !HangsOff(x, r) {
      var k :| 0 <= k < |rest| && HangsOff(x, rest[k]);
      assert left[if k < |held| then k else k - 1] == rest[k];
    }
  }

  lemma CountsAfterSource(held: seq<Record>, r: Record, tail: seq<Record>, w: Counts, after: Counts, ids: set<RecordId>)
    requires var rest := held + [r] + tail;
             UniqueIds(rest) && Right(w, rest, ids, false) &&
             forall i :: 0 <= i < |rest| ==> At(after, rest[i].id) == At(w, rest[i].id) - if HangsOff(rest[i], r) then 1 else 0
    ensures Right(after, held + tail, ids, false)
  {
    var rest, left := held + [r] + tail, held + tail;
    forall j | 0 <= j < |left|
      ensures At(after, left[j].id) == if Waits(left, left[j]) then 1 else 0
    {
      var i := if j < |held| then j else j + 1;
      assert rest[i] == left[j] && rest[|held|] == r;
      WaitsAfter(held, r, tail, left[j]);
    }
  }

  /** Sending a record out keeps everything right. */
  lemma SendKeeps(all: seq<Record>, out: seq<Record>, held: seq<Record>, r: Record, tail: seq<Record>,
                  w: Counts, dependentsFirst: bool, ids: set<RecordId>)
    requires At(w, r.id) <= 0 && UniqueIds(all)
    requires forall x :: x in held + [r] + tail ==> x in all
    requires Sound(out, held + [r] + tail, w, ids, dependentsFirst)
    ensures Sound(out + [r], held + tail, Send(all, r, w, dependentsFirst), ids, dependentsFirst)
  {
    var rest := held + [r] + tail;
    EmittedInOrder(out, held, r, tail, w, ids, dependentsFirst);
    if dependentsFirst {
      CountsAfterDependent(held, r, tail, w, ids);
    } else {
      forall i | 0 <= i < |rest|
        ensures At(Send(all, r, w, false), rest[i].id) == At(w, rest[i].id) - if HangsOff(rest[i], r) then 1 else 0
      {
        assert rest[i] in all;
        var j :| 0 <= j < |all| && all[j] == rest[i];
        ReleasedAt(all, |all|, r, w, j);
      }
      CountsAfterSource(held, r, tail, w, Send(all, r, w, false), ids);
    }
  }

  lemma NextUp(held: seq<Record>, all: seq<Record>, i: nat)
    requires i < |all|
    ensures held + all[i..] == held + [all[i]] + all[i + 1..]
  {
    assert all[i..] == [all[i]] + all[i + 1..];
  }

  lemma {:induction false} RoundKeeps(all: seq<Record>, n: nat, out: seq<Record>, w: Counts, dependentsFirst: bool, ids: set<RecordId>)
    requires n <= |all| && Sound(out, all, w, ids, dependentsFirst)
    ensures var p := Through(all, n, out, w, dependentsFirst);
            && (forall x :: x in p.held ==> x in all)
            && Sound(p.out, p.held + all[n..], p.w, ids, dependentsFirst)
  {
    if n == 0 {
      assert [] + all[0..] == all;
    } else {
      RoundKeeps(all, n - 1, out, w, dependentsFirst, ids);
      var p := Through(all, n - 1, out, w, dependentsFirst);
      NextUp(p.held, all, n - 1);
      if At(p.w, all[n - 1].id) <= 0 {
        SendKeeps(all, p.out, p.held, all[n - 1], all[n..], p.w, dependentsFirst, ids);
      }
    }
  }

  // ------------------------------------------------------------ a permutation

  ghost function Pile(out: seq<Record>, held: seq<Record>, todo: seq<Record>): multiset<Record>
  {
    multiset(out) + multiset(held) + multiset(todo)
  }

  lemma PileSent(out: seq<Record>, held: seq<Record>, r: Record, rest: seq<Record>)
    ensures Pile(out + [r], held, rest) == Pile(out, held, [r] + rest)
  {
  }

  lemma PileHeld(out: seq<Record>, held: seq<Record>, r: Record, rest: seq<Record>)
    ensures Pile(out, held + [r], rest) == Pile(out, held, [r] + rest)
  {
  }

  /** What a round has in hand after n records. */
  ghost function InHand(all: seq<Record>, n: nat, p: Pass): multiset<Record>
    requires n <= |all|
  {
    Pile(p.out, p.held, all[n..])
  }

  lemma RoundStep(all: seq<Record>, n: nat, out: seq<Record>, w: Counts, dependentsFirst: bool)
    requires 0 < n <= |all|
    ensures InHand(all, n, Through(all, n, out, w, dependentsFirst)) ==
            InHand(all, n - 1, Through(all, n - 1, out, w, dependentsFirst))
  {
    var p, r := Through(all, n - 1, out, w, dependentsFirst), all[n - 1];
    assert all[n - 1..] == [r] + all[n..];
    if At(p.w, r.id) > 0 {
      PileHeld(p.out, p.held, r, all[n..]);
    } else {
      PileSent(p.out, p.held, r, all[n..]);
    }
  }

  lemma {:induction false} RoundPermutes(all: seq<Record>, n: nat, out: seq<Record>, w: Counts, dependentsFirst: bool)
    requires n <= |all|
    ensures InHand(all, n, Through(all, n, out, w, dependentsFirst)) == Pile(out, [], all)
  {
    if n == 0 {
      assert all[0..] == all;
    } else {
      RoundPermutes(all, n - 1, out, w, dependentsFirst);
      RoundStep(all, n, out, w, dependentsFirst);
    }
  }

  lemma {:induction false} RoundsPermute(all: seq<Record>, out: seq<Record>, w: Counts, dependentsFirst: bool)
    ensures multiset(Rounds(all, out, w, dependentsFirst)) == Pile(out, [], all)
    decreases |all|
  {
    if all != [] {
      RoundPermutes(all, |all|, out, w, dependentsFirst);
      assert all[|all|..] == [];
      var p := Through(all, |all|, out, w, dependentsFirst);
      if |p.held| < |all| {
        RoundsPermute(p.held, p.out, p.w, dependentsFirst);
      }
    }
  }

  /** On every input, links in circles and identifiers used twice included, what
      comes out is what went in. */
  lemma OrderedIsPermutation(all: seq<Record>, dependentsFirst: bool)
    ensures multiset(Ordered(all, dependentsFirst)) == multiset(all)
  {
    RoundsPermute(all, [], Counted(all, |all|, Ids(all), dependentsFirst), dependentsFirst);
  }

  /** In a forest something always waits for nothing. */
  lemma SomethingIsFree(all: seq<Record>, w: Counts, ids: set<RecordId>, dependentsFirst: bool, rank: RecordId -> nat)
    requires all != [] && UniqueIds(all) && Ids(all) <= ids && Ranked(all, rank) && Right(w, all, ids, dependentsFirst)
    ensures exists j :: 0 <= j < |all| && At(w, all[j].id) <= 0
  {
    var j := Extreme(all, rank, dependentsFirst);
    forall i | 0 <= i < |all|
      ensures !Precedes(all[i], all[j], dependentsFirst)
    {
      assert all[i] in all && all[j] in all;
    }
    assert all[j].id in Ids(all);
    NoDependents(all, all[j].id);
  }

  lemma {:induction false} Extreme(all: seq<Record>, rank: RecordId -> nat, highest: bool) returns (j: nat)
    requires all != []
    ensures j < |all|
    ensures forall i :: 0 <= i < |all| ==>
              if highest then rank(all[i].id) <= rank(all[j].id) else rank(all[j].id) <= rank(all[i].id)
  {
    if |all| == 1 {
      j := 0;
    } else {
      var k := Extreme(all[1..], rank, highest);
      assert forall i :: 1 <= i < |all| ==> all[i] == all[1..][i - 1];
      var keep := if highest then rank(all[0].id) <= rank(all[k + 1].id) else rank(all[k + 1].id) <= rank(all[0].id);
      j := if keep then k + 1 else 0;
    }
  }

  /** A round in which everything is held has sent nothing out. */
  lemma {:induction false} NothingSent(all: seq<Record>, n: nat, out: seq<Record>, w: Counts, dependentsFirst: bool)
    requires n <= |all| && |Through(all, n, out, w, dependentsFirst).held| == n
    ensures Through(all, n, out, w, dependentsFirst) == Pass(out, all[..n], w)
    ensures forall j :: 0 <= j < n ==> At(w, all[j].id) > 0
  {
    if n > 0 {
      NothingSent(all, n - 1, out, w, dependentsFirst);
      assert all[..n] == all[..n - 1] + [all[n - 1]];
    }
  }

  /** While links form a forest, every round sends something out. */
  lemma RoundSends(all: seq<Record>, out: seq<Record>, w: Counts, dependentsFirst: bool, ids: set<RecordId>, rank: RecordId -> nat)
    requires all != [] && Sound(out, all, w, ids, dependentsFirst) && Ranked(all, rank)
    ensures |Through(all, |all|, out, w, dependentsFirst).held| < |all|
  {
    SomethingIsFree(all, w, ids, dependentsFirst, rank);
    if |Through(all, |all|, out, w, dependentsFirst).held| == |all| {
      NothingSent(all, |all|, out, w, dependentsFirst);
    }
  }

  lemma {:induction false} RoundsInOrder(all: seq<Record>, out: seq<Record>, w: Counts, dependentsFirst: bool,
                                        ids: set<RecordId>, rank: RecordId -> nat)
    requires Sound(out, all, w, ids, dependentsFirst) && Ranked(all, rank)
    ensures InOrder(Rounds(all, out, w, dependentsFirst), dependentsFirst)
    decreases |all|
  {
    if all != [] {
      RoundSends(all, out, w, dependentsFirst, ids, rank);
      RoundKeeps(all, |all|, out, w, dependentsFirst, ids);
      var p := Through(all, |all|, out, w, dependentsFirst);
      assert p.held + all[|all|..] == p.held;
      RoundsInOrder(p.held, p.out, p.w, dependentsFirst, ids, rank);
    }
  }

  /** Where the links form a forest, every dependent comes before its source, or
      every source before its dependents. */
  lemma OrderedIsInOrder(all: seq<Record>, dependentsFirst: bool)
    requires Forest(all)
    ensures InOrder(Ordered(all, dependentsFirst), dependentsFirst)
  {
    var rank :| Ranked(all, rank);
    CountedRight(all, dependentsFirst);
    RoundsInOrder(all, [], Counted(all, |all|, Ids(all), dependentsFirst), dependentsFirst, Ids(all), rank);
  }
}
