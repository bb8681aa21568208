/** Following the history of a zone back along its serials. */
module Chain {
  import opened Dns
  import opened Journal

  /** Commits by the serial they produced. */
  type Ends = m: map<Serial, Commit> | forall s :: s in m ==> m[s].serialTo == s

  /** Where n steps back from a serial lead, if the map goes that far. */
  function Walk(ends: Ends, to: Serial, n: nat): Option<Serial>
  {
    if n == 0 then Some(to)
    else
      match Walk(ends, to, n - 1)
      case None => None
      case Some(at) => if at in ends then Some(ends[at].serialFrom) else None
  }

  ghost predicate Reaches(ends: Ends, from: Serial, to: Serial)
  {
    exists n: nat :: Walk(ends, to, n) == Some(from)
  }

  /** The serial is met after n steps back, and not before. */
  ghost predicate FirstAt(ends: Ends, from: Serial, to: Serial, n: nat)
  {
    Walk(ends, to, n) == Some(from) && NotYet(ends, from, to, n)
  }

  ghost predicate NotYet(ends: Ends, from: Serial, to: Serial, n: nat)
  {
    forall i :: 0 <= i < n ==> Walk(ends, to, i) != Some(from)
  }

  /** The commit taken at a step back. */
  ghost predicate TakenAt(ends: Ends, to: Serial, n: nat, c: Commit)
  {
    Walk(ends, to, n).Some? && Walk(ends, to, n).value in ends && c == ends[Walk(ends, to, n).value]
  }

  /** The commits that lead from one serial to another, oldest first: those taken
      on the way back until the serial is first met. */
  ghost predicate IsChain(ends: Ends, cs: seq<Commit>, from: Serial, to: Serial)
  {
    && FirstAt(ends, from, to, |cs|)
    && forall i :: 0 <= i < |cs| ==> TakenAt(ends, to, |cs| - 1 - i, cs[i])
  }

  /** They run without a gap from the one serial to the other. */
  lemma ChainIsContiguous(ends: Ends, cs: seq<Commit>, from: Serial, to: Serial)
    requires IsChain(ends, cs, from, to)
    ensures Chained(cs)
    ensures if cs == [] then from == to else cs[0].serialFrom == from && cs[|cs| - 1].serialTo == to
  {
    forall i | 0 < i < |cs|
      ensures cs[i - 1].serialTo == cs[i].serialFrom
    {
      assert TakenAt(ends, to, |cs| - 1 - i, cs[i]) && TakenAt(ends, to, |cs| - i, cs[i - 1]);
    }
    if cs != [] {
      assert TakenAt(ends, to, |cs| - 1, cs[0]) && TakenAt(ends, to, 0, cs[|cs| - 1]);
    }
  }

  /** Equal serials lead on equally. */
  lemma {:induction false} WalkRepeats(ends: Ends, to: Serial, i: nat, j: nat, k: nat)
    requires Walk(ends, to, i) == Walk(ends, to, j)
    ensures Walk(ends, to, i + k) == Walk(ends, to, j + k)
    decreases k
  {
    if k > 0 {
      WalkRepeats(ends, to, i, j, k - 1);
    }
  }

  lemma {:induction false} WalkGoesOn(ends: Ends, to: Serial, i: nat, n: nat)
    requires i <= n && Walk(ends, to, n).Some?
    ensures Walk(ends, to, i).Some?
    ensures i < n ==> Walk(ends, to, i).value in ends
    decreases n - i
  {
    if i < n {
      WalkGoesOn(ends, to, i + 1, n);
    }
  }

  ghost function Visited(ends: Ends, to: Serial, n: nat): set<Serial>
    requires Walk(ends, to, n).Some?
  {
    if n == 0 then {}
    else
      WalkGoesOn(ends, to, n - 1, n);
      Visited(ends, to, n - 1) + {Walk(ends, to, n - 1).value}
  }

  lemma {:induction false} VisitedAt(ends: Ends, to: Serial, n: nat, s: Serial) returns (i: nat)
    requires Walk(ends, to, n).Some? && s in Visited(ends, to, n)
    ensures i < n && Walk(ends, to, i) == Some(s)
  {
    WalkGoesOn(ends, to, n - 1, n);
    if s == Walk(ends, to, n - 1).value {
      i := n - 1;
    } else {
      i := VisitedAt(ends, to, n - 1, s);
    }
  }

  /** A shortest way never comes back to a serial. */
  lemma NoReturn(ends: Ends, from: Serial, to: Serial, n: nat, i: nat, j: nat)
    requires FirstAt(ends, from, to, n) && i < j < n
    ensures Walk(ends, to, i) != Walk(ends, to, j)
  {
    if Walk(ends, to, i) == Walk(ends, to, j) {
      WalkRepeats(ends, to, i, j, n - j);
    }
  }

  /** So it is no longer than the map is large. */
  lemma {:induction false} VisitedOnce(ends: Ends, from: Serial, to: Serial, n: nat, m: nat)
    requires m <= n && FirstAt(ends, from, to, n) && Walk(ends, to, m).Some?
    ensures Visited(ends, to, m) <= ends.Keys && |Visited(ends, to, m)| == m
    decreases m
  {
    if m > 0 {
      WalkGoesOn(ends, to, m - 1, n);
      VisitedOnce(ends, from, to, n, m - 1);
      var s := Walk(ends, to, m - 1).value;
      if s in Visited(ends, to, m - 1) {
        var i := VisitedAt(ends, to, m - 1, s);
        NoReturn(ends, from, to, n, i, m - 1);
      }
    }
  }

  lemma {:induction false} Shortest(ends: Ends, from: Serial, to: Serial, n: nat) returns (m: nat)
    requires Walk(ends, to, n) == Some(from)
    ensures m <= |ends| && Walk(ends, to, m) == Some(from)
    decreases n
  {
    if k: nat :| k < n && Walk(ends, to, k) == Some(from) {
      m := Shortest(ends, from, to, k);
    } else {
      m := n;
      assert FirstAt(ends, from, to, n);
      VisitedOnce(ends, from, to, n, n);
      SubsetSize(Visited(ends, to, n), ends.Keys);
    }
  }

  /** A way that breaks off before it arrives never arrives. */
  lemma BreaksOff(ends: Ends, from: Serial, to: Serial, n: nat)
    requires NotYet(ends, from, to, n + 1)
    requires Walk(ends, to, n).Some? && Walk(ends, to, n).value !in ends
    ensures !Reaches(ends, from, to)
  {
    if k: nat :| Walk(ends, to, k) == Some(from) {
      if k > n { WalkGoesOn(ends, to, n, k); }
    }
  }

  /** One that has taken more steps than the map has serials never arrives. */
  lemma TooLong(ends: Ends, from: Serial, to: Serial, n: nat)
    requires NotYet(ends, from, to, n) && n > |ends|
    ensures !Reaches(ends, from, to)
  {
    if k: nat :| Walk(ends, to, k) == Some(from) {
      var _ := Shortest(ends, from, to, k);
    }
  }

  lemma {:induction false} SubsetSize<T>(a: set<T>, b: set<T>)
    requires a <= b
    ensures |a| <= |b|
  {
    assert b == a + (b - a);
  }

  method Reverse(cs: array<Commit>)
    modifies cs
    ensures forall k :: 0 <= k < cs.Length ==> cs[k] == old(cs[cs.Length - 1 - k])
  {
    var i, j := 0, cs.Length - 1;
    while i < j
      invariant 0 <= i && i + j == cs.Length - 1 && i <= j + 1
      invariant forall k :: 0 <= k < i || j < k < cs.Length ==> cs[k] == old(cs[cs.Length - 1 - k])
      invariant forall k :: i <= k <= j ==> cs[k] == old(cs[k])
    {
      cs[i], cs[j] := cs[j], cs[i];
      i, j := i + 1, j - 1;
    }
  }

  /** The steps taken so far, newest first. */
  ghost predicate Trail(ends: Ends, out: seq<Commit>, to: Serial)
  {
    forall i :: 0 <= i < |out| ==> TakenAt(ends, to, i, out[i])
  }

  /** The chain from one serial to another, found exactly when following the map
      back from the later one arrives at the earlier one. */
  method ChainBack(ends: Ends, from: Serial, to: Serial) returns (chain: Option<seq<Commit>>)
    ensures chain.Some? <==> Reaches(ends, from, to)
    ensures chain.Some? ==> IsChain(ends, chain.value, from, to)
  {
    var out: seq<Commit> := [];
    var at := to;
    while at != from
      invariant |out| <= |ends| && Walk(ends, to, |out|) == Some(at)
      invariant NotYet(ends, from, to, |out|) && Trail(ends, out, to)
      decreases |ends| - |out|
    {
      if at !in ends {
        BreaksOff(ends, from, to, |out|);
        return None;
      }
      out := out + [ends[at]];
      at := ends[at].serialFrom;
      if |out| > |ends| {
        TooLong(ends, from, to, |out|);
        return None;
      }
    }
    var a := new Commit[|out|](i requires 0 <= i < |out| => out[i]);
    Reverse(a);
    assert forall k :: 0 <= k < |out| ==> TakenAt(ends, to, |out| - 1 - k, a[k]);
    return Some(a[..]);
  }

  // ------------------------------------------------------- page by page

  /** What a newest-first listing maps each serial to: the first commit met. */
  function EndsOf(listing: seq<Commit>): (e: Ends)
  {
    if listing == [] then map[]
    else
      var c := listing[|listing| - 1];
      var before := EndsOf(listing[..|listing| - 1]);
      if c.serialTo in before then before else before[c.serialTo := c]
  }

  lemma EndsSnoc(listing: seq<Commit>, c: Commit)
    ensures EndsOf(listing + [c]) ==
            if c.serialTo in EndsOf(listing) then EndsOf(listing) else EndsOf(listing)[c.serialTo := c]
  {
    assert (listing + [c])[..|listing|] == listing;
  }

  function Flat(pages: seq<seq<Commit>>): seq<Commit>
  {
    if pages == [] then [] else Flat(pages[..|pages| - 1]) + pages[|pages| - 1]
  }

  ghost predicate Extends(small: Ends, large: Ends)
  {
    forall s :: s in small ==> s in large && large[s] == small[s]
  }

  lemma {:induction false} EndsGrow(a: seq<Commit>, b: seq<Commit>)
    ensures Extends(EndsOf(a), EndsOf(a + b))
    decreases |b|
  {
    if b == [] {
      assert a + b == a;
    } else {
      assert (a + b)[..|a + b| - 1] == a + b[..|b| - 1];
      EndsGrow(a, b[..|b| - 1]);
    }
  }

  lemma {:induction false} FlatPrefix(pages: seq<seq<Commit>>, n: nat) returns (rest: seq<Commit>)
    requires n <= |pages|
    ensures Flat(pages) == Flat(pages[..n]) + rest
    decreases |pages| - n
  {
    if n == |pages| {
      assert pages[..n] == pages;
      rest := [];
    } else {
      rest := FlatPrefix(pages, n + 1);
      assert pages[..n + 1][..n] == pages[..n];
      rest := pages[n] + rest;
    }
  }

  method ReadPage(before: Ends, ghost read: seq<Commit>, page: seq<Commit>) returns (ends: Ends)
    requires before == EndsOf(read)
    ensures ends == EndsOf(read + page)
  {
    ends := before;
    assert read + page[..0] == read;
    for i := 0 to |page|
      invariant ends == EndsOf(read + page[..i])
    {
      assert read + page[..i + 1] == read + page[..i] + [page[i]];
      EndsSnoc(read + page[..i], page[i]);
      if page[i].serialTo !in ends {
        ends := ends[page[i].serialTo := page[i]];
      }
    }
    assert page[..|page|] == page;
  }

  /** Reads the listing a page at a time and stops as soon as the chain is whole.
      Where the pages fall does not matter: it finds a chain exactly when the
      whole listing holds one, and what it returns is a chain of the whole. */
  method CommitsBetween(pages: seq<seq<Commit>>, from: Serial, to: Serial) returns (r: Result<seq<Commit>>)
    requires pages != []
    ensures r.Ok? <==> Reaches(EndsOf(Flat(pages)), from, to)
    ensures r.Ok? ==> IsChain(EndsOf(Flat(pages)), r.value, from, to)
    ensures r.Err? ==> r.reason == NotFound
  {
    var ends: Ends := map[];
    var p := 0;
    while p < |pages|
      invariant 0 <= p <= |pages| && ends == EndsOf(Flat(pages[..p]))
      invariant p == |pages| ==> !Reaches(ends, from, to)
    {
      assert pages[..p + 1][..p] == pages[..p];
      ends := ReadPage(ends, Flat(pages[..p]), pages[p]);
      var chain := ChainBack(ends, from, to);
      if chain.Some? {
        WholeListing(pages, p + 1, chain.value, from, to);
        return Ok(chain.value);
      }
      p := p + 1;
    }
    assert pages[..p] == pages;
    return Err(NotFound);
  }

  /** A chain found in the first pages is a chain of the whole listing. */
  lemma WholeListing(pages: seq<seq<Commit>>, n: nat, cs: seq<Commit>, from: Serial, to: Serial)
    requires n <= |pages|
    requires IsChain(EndsOf(Flat(pages[..n])), cs, from, to)
    ensures IsChain(EndsOf(Flat(pages)), cs, from, to)
  {
    var rest := FlatPrefix(pages, n);
    EndsGrow(Flat(pages[..n]), rest);
    ChainGrows(EndsOf(Flat(pages[..n])), EndsOf(Flat(pages)), cs, from, to);
  }

  lemma ChainGrows(small: Ends, large: Ends, cs: seq<Commit>, from: Serial, to: Serial)
    requires Extends(small, large) && IsChain(small, cs, from, to)
    ensures IsChain(large, cs, from, to)
  {
    forall i | 0 <= i <= |cs|
      ensures Walk(large, to, i) == Walk(small, to, i)
    {
      WalkGrows(small, large, to, i, |cs|);
    }
    forall i | 0 <= i < |cs|
      ensures TakenAt(large, to, |cs| - 1 - i, cs[i])
    {
      assert TakenAt(small, to, |cs| - 1 - i, cs[i]);
    }
  }

  lemma {:induction false} WalkGrows(small: Ends, large: Ends, to: Serial, i: nat, n: nat)
    requires Extends(small, large) && i <= n && Walk(small, to, n).Some?
    ensures Walk(large, to, i) == Walk(small, to, i)
    decreases i
  {
    if i > 0 {
      WalkGoesOn(small, to, i - 1, n);
      WalkGrows(small, large, to, i - 1, n);
    }
  }
}
