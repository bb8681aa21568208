/** What a zone's history says: replaying events over the served content of a
    zone, and the shape a commit has to have. */
module Journal {
  import opened Dns

  /** A zone as the journal sees it: the TTL each resource record answers with,
      and the start of authority with its serial taken out. */
  datatype State = State(content: map<Key, nat>, soa: Option<Soa>)

  const EMPTY := State(map[], None)

  function EventKey(e: Event): Key
  {
    Key(e.name, e.cls, e.typ, e.data)
  }

  /** The parameters a start-of-authority event carries, without the serial. */
  function SoaOf(e: Event): Option<Soa>
  {
    if e.data.SoaData? then
      Some(Soa(e.data.ns, e.data.mbox, 0, e.data.refresh, e.data.retry, e.data.expire, e.data.minimum, e.ttl))
    else None
  }

  /** Carries one event out. A deletion names a record that is there, with the
      TTL it has, and an addition one that is not. */
  function Step(st: State, e: Event): Option<State>
  {
    if e.typ == SOA then
      if e.op == Del then
        if st.soa.Some? && SoaOf(e) == st.soa then Some(st.(soa := None)) else None
      else
        if st.soa.None? && SoaOf(e).Some? then Some(st.(soa := SoaOf(e))) else None
    else
      var k := EventKey(e);
      if e.op == Del then
        if k in st.content && st.content[k] == e.ttl then Some(st.(content := st.content - {k})) else None
      else
        if k !in st.content then Some(st.(content := st.content[k := e.ttl])) else None
  }

  function Replay(st: State, es: seq<Event>): Option<State>
    decreases |es|
  {
    if es == [] then Some(st)
    else
      match Step(st, es[0])
      case None => None
      case Some(next) => Replay(next, es[1..])
  }

  lemma {:induction false} ReplayConcat(st: State, a: seq<Event>, b: seq<Event>)
    ensures Replay(st, a + b) ==
            match Replay(st, a) { case None => None case Some(mid) => Replay(mid, b) }
    decreases |a|
  {
    if a == [] {
      assert a + b == b;
    } else {
      assert (a + b)[1..] == a[1..] + b;
      if Step(st, a[0]).Some? {
        ReplayConcat(Step(st, a[0]).value, a[1..], b);
      }
    }
  }

  // --------------------------------------------- the first event on a key

  function FirstFor(es: seq<Event>, k: Key): Option<Event>
  {
    if es == [] then None
    else if es[0].typ != SOA && EventKey(es[0]) == k then Some(es[0])
    else FirstFor(es[1..], k)
  }

  function FirstSoaDel(es: seq<Event>): Option<Event>
  {
    if es == [] then None
    else if es[0].typ == SOA && es[0].op == Del then Some(es[0])
    else FirstSoaDel(es[1..])
  }

  /** The state a record had when a range began, read off the first event on it. */
  ghost predicate StartsAs(st: State, k: Key, first: Event)
  {
    if first.op == Del then k in st.content && st.content[k] == first.ttl else k !in st.content
  }

  ghost predicate SameAt(a: State, b: State, k: Key)
  {
    (k in a.content <==> k in b.content) && (k in a.content ==> a.content[k] == b.content[k])
  }

  /** In a history that replays, the first event on a key says what the key's
      record was when the range began, and no event says nothing changed. */
  lemma {:induction false} FirstEventDecides(st: State, es: seq<Event>, k: Key)
    requires Replay(st, es).Some?
    ensures match FirstFor(es, k)
            case Some(e) => StartsAs(st, k, e)
            case None => SameAt(st, Replay(st, es).value, k)
    decreases |es|
  {
    if es != [] {
      var next := Step(st, es[0]).value;
      FirstEventDecides(next, es[1..], k);
    }
  }

  /** The same for the start of authority of a zone that had one. */
  lemma {:induction false} FirstSoaDelDecides(st: State, es: seq<Event>)
    requires st.soa.Some? && Replay(st, es).Some?
    ensures match FirstSoaDel(es)
            case Some(e) => SoaOf(e) == st.soa
            case None => Replay(st, es).value.soa == st.soa
    decreases |es|
  {
    if es != [] {
      var next := Step(st, es[0]).value;
      if es[0].typ != SOA {
        FirstSoaDelDecides(next, es[1..]);
      }
    }
  }

  // ------------------------------------------------------ shape of commits

  /** Numbered from zero without gaps, and every deletion before every addition,
      which makes the events one difference sequence of section 2 of RFC 1995. */
  predicate DifferenceSequence(es: seq<Event>)
  {
    && (forall i :: 0 <= i < |es| ==> es[i].seqNo == i)
    && (forall i, j :: 0 <= i < |es| && i < j < |es| && es[i].op == Add ==> es[j].op == Add)
  }

  function Events(cs: seq<Commit>): seq<Event>
  {
    if cs == [] then [] else cs[0].events + Events(cs[1..])
  }

  lemma {:induction false} EventsConcat(a: seq<Commit>, b: seq<Commit>)
    ensures Events(a + b) == Events(a) + Events(b)
  {
    if a == [] {
      assert a + b == b;
    } else {
      assert (a + b)[1..] == a[1..] + b;
      EventsConcat(a[1..], b);
    }
  }

  /** One commit takes up where the one before it ended. */
  ghost predicate Chained(cs: seq<Commit>)
  {
    forall i, j :: 0 <= i < j < |cs| && j == i + 1 ==> cs[i].serialTo == cs[j].serialFrom
  }

  /** The commits of one zone, in the order they were recorded. */
  function Of(cs: seq<Commit>, z: ZoneId): seq<Commit>
  {
    if cs == [] then []
    else (if cs[0].zone == z then [cs[0]] else []) + Of(cs[1..], z)
  }

  lemma {:induction false} OfConcat(a: seq<Commit>, b: seq<Commit>, z: ZoneId)
    ensures Of(a + b, z) == Of(a, z) + Of(b, z)
  {
    if a == [] {
      assert a + b == b;
    } else {
      assert (a + b)[1..] == a[1..] + b;
      OfConcat(a[1..], b, z);
      var first := if a[0].zone == z then [a[0]] else [];
      assert Of(a + b, z) == first + Of(a[1..] + b, z);
      assert first + (Of(a[1..], z) + Of(b, z)) == (first + Of(a[1..], z)) + Of(b, z);
    }
  }
}
