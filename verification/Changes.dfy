/** The work queued for one zone, the journal events it amounts to, and what
    replaying those events does. */
module Changes {
  import opened Dns
  import opened Journal

  datatype SoaChange = SoaChange(before: Soa, after: Soa)

  datatype Update = Update(before: Record, after: Record)

  datatype Changes = Changes(
    deletes: seq<Record>, updates: seq<Update>, inserts: seq<Record>,
    claims: seq<Record>, touched: set<Name>, soa: Option<SoaChange>)
  {
    function Remove(r: Record): Changes
    {
      this.(deletes := deletes + [r], touched := touched + {r.name})
    }

    function Replace(before: Record, after: Record): Changes
    {
      this.(updates := updates + [Update(before, after)], touched := touched + {before.name, after.name})
    }

    function Insert(r: Record): Changes
    {
      this.(inserts := inserts + [r], touched := touched + {r.name})
    }

    /** A claim alone changes nothing. */
    predicate Empty()
    {
      soa == None && deletes == [] && updates == [] && inserts == []
    }

    predicate Removing(id: RecordId)
    {
      exists i :: 0 <= i < |deletes| && deletes[i].id == id
    }
  }

  const NO_CHANGES := Changes([], [], [], [], {}, None)

  function Befores(us: seq<Update>): seq<Record>
  {
    seq(|us|, i requires 0 <= i < |us| => us[i].before)
  }

  function Afters(us: seq<Update>): seq<Record>
  {
    seq(|us|, i requires 0 <= i < |us| => us[i].after)
  }

  // --------------------------------------------------------- the names touched

  ghost predicate NamedBy(c: Changes, n: Name)
  {
    || (exists r :: r in c.deletes && r.name == n)
    || (exists u :: u in c.updates && (u.before.name == n || u.after.name == n))
    || (exists r :: r in c.inserts && r.name == n)
  }

  /** The names touched are those of every record that leaves or arrives. */
  ghost predicate InStep(c: Changes)
  {
    forall n :: n in c.touched <==> NamedBy(c, n)
  }

  lemma RemoveInStep(c: Changes, r: Record)
    requires InStep(c)
    ensures InStep(c.Remove(r))
  {
    var d := c.Remove(r);
    assert r in d.deletes && forall s :: s in d.deletes <==> s in c.deletes || s == r;
  }

  lemma InsertInStep(c: Changes, r: Record)
    requires InStep(c)
    ensures InStep(c.Insert(r))
  {
    var d := c.Insert(r);
    assert r in d.inserts && forall s :: s in d.inserts <==> s in c.inserts || s == r;
  }

  lemma ReplaceInStep(c: Changes, before: Record, after: Record)
    requires InStep(c)
    ensures InStep(c.Replace(before, after))
  {
    var d, u := c.Replace(before, after), Update(before, after);
    assert u in d.updates && forall v :: v in d.updates <==> v in c.updates || v == u;
  }

  // --------------------------------------------------------------- events

  function EventFor(op: Op, r: Record): Event
  {
    Event(0, op, r.name, r.cls, r.typ, r.ttl, r.data)
  }

  function Marks(op: Op, rs: seq<Record>): seq<Event>
  {
    seq(|rs|, i requires 0 <= i < |rs| => EventFor(op, rs[i]))
  }

  /** Events counted from zero. */
  function Number(es: seq<Event>): seq<Event>
  {
    seq(|es|, i requires 0 <= i < |es| => es[i].(seqNo := i))
  }

  /** Every record a change takes out of the zone, and every one it puts in. */
  function Leaving(c: Changes): seq<Record>
  {
    c.deletes + Befores(c.updates)
  }

  function Arriving(c: Changes): seq<Record>
  {
    Afters(c.updates) + c.inserts
  }

  function EventsOf(c: Changes): seq<Event>
  {
    Number(Marks(Del, Leaving(c)) + Marks(Add, Arriving(c)))
  }

  method RenderEvents(c: Changes) returns (out: seq<Event>)
    ensures out == EventsOf(c)
    ensures DifferenceSequence(out)
  {
    var es: seq<Event> := [];
    for i := 0 to |c.deletes|
      invariant es == Marks(Del, c.deletes[..i])
    {
      es := es + [EventFor(Del, c.deletes[i])];
    }
    for i := 0 to |c.updates|
      invariant es == Marks(Del, c.deletes) + Marks(Del, Befores(c.updates[..i]))
    {
      es := es + [EventFor(Del, c.updates[i].before)];
    }
    assert es == Marks(Del, Leaving(c));
    for i := 0 to |c.updates|
      invariant es == Marks(Del, Leaving(c)) + Marks(Add, Afters(c.updates[..i]))
    {
      es := es + [EventFor(Add, c.updates[i].after)];
    }
    for i := 0 to |c.inserts|
      invariant es == Marks(Del, Leaving(c)) + Marks(Add, Afters(c.updates) + c.inserts[..i])
    {
      es := es + [EventFor(Add, c.inserts[i])];
    }
    out := [];
    for i := 0 to |es|
      invariant |out| == i && forall j :: 0 <= j < i ==> out[j] == es[j].(seqNo := j)
    {
      out := out + [es[i].(seqNo := i)];
    }
  }

  /** Folds a change of the start of authority into a commit's events: the old
      one leads the deletions, the new one leads the additions. */
  function FoldSoa(es: seq<Event>, was: Event, now: Event): seq<Event>
  {
    var adds := FirstAdd(es);
    Number([was] + es[..adds] + [now] + es[adds..])
  }

  function FirstAdd(es: seq<Event>): (i: nat)
    ensures i <= |es|
    ensures i < |es| ==> es[i].op == Add
    ensures forall j :: 0 <= j < i ==> es[j].op == Del
  {
    if es == [] || es[0].op == Add then 0
    else
      var i := FirstAdd(es[1..]);
      assert es[0].op == Del;
      assert forall j :: 1 <= j < 1 + i ==> es[j] == es[1..][j - 1];
      1 + i
  }

  /** Folding keeps a difference sequence one. */
  lemma FoldKeepsShape(es: seq<Event>, was: Event, now: Event)
    requires DifferenceSequence(es) && was.op == Del && now.op == Add
    ensures DifferenceSequence(FoldSoa(es, was, now))
  {
    var adds := FirstAdd(es);
    var out := FoldSoa(es, was, now);
    forall i, j | 0 <= i < j < |out| && out[i].op == Add
      ensures out[j].op == Add
    {
      assert i > adds;
      if j > adds + 1 {
        assert out[j].op == es[j - 2].op;
        assert es[adds].op == Add;
      }
    }
  }

  // --------------------------------------------------- replaying the queue

  ghost predicate SameButNumbers(a: seq<Event>, b: seq<Event>)
  {
    |a| == |b| && forall i :: 0 <= i < |a| ==> a[i].(seqNo := 0) == b[i].(seqNo := 0)
  }

  lemma {:induction false} ReplayIgnoresNumbers(st: State, a: seq<Event>, b: seq<Event>)
    requires SameButNumbers(a, b)
    ensures Replay(st, a) == Replay(st, b)
    decreases |a|
  {
    if a != [] {
      assert a[0].(seqNo := 0) == b[0].(seqNo := 0);
      assert Step(st, a[0]) == Step(st, b[0]);
      if Step(st, a[0]).Some? {
        ReplayIgnoresNumbers(Step(st, a[0]).value, a[1..], b[1..]);
      }
    }
  }

  ghost predicate DistinctKeys(rs: seq<Record>)
  {
    forall i, j :: 0 <= i < j < |rs| ==> KeyOf(rs[i]) != KeyOf(rs[j])
  }

  ghost predicate NoSoa(rs: seq<Record>)
  {
    forall i :: 0 <= i < |rs| ==> rs[i].typ != SOA
  }

  ghost function Keys(rs: seq<Record>): set<Key>
  {
    set i | 0 <= i < |rs| :: KeyOf(rs[i])
  }

  /** The TTL each record is added with. */
  ghost function Ttls(rs: seq<Record>): map<Key, nat>
  {
    if rs == [] then map[] else map[KeyOf(rs[0]) := rs[0].ttl] + Ttls(rs[1..])
  }

  lemma {:induction false} TtlsAt(rs: seq<Record>)
    requires DistinctKeys(rs)
    ensures Ttls(rs).Keys == Keys(rs)
    ensures forall i :: 0 <= i < |rs| ==> Ttls(rs)[KeyOf(rs[i])] == rs[i].ttl
    decreases |rs|
  {
    if rs != [] {
      TtlsAt(rs[1..]);
      KeysCons(rs);
      forall i | 0 <= i < |rs|
        ensures KeyOf(rs[i]) in Ttls(rs) && Ttls(rs)[KeyOf(rs[i])] == rs[i].ttl
      {
        if i > 0 {
          assert rs[1..][i - 1] == rs[i];
          assert KeyOf(rs[i]) in Keys(rs[1..]);
        }
      }
    }
  }

  /** Every record is in the content, with the TTL it has there. */
  ghost predicate AllHeld(content: map<Key, nat>, rs: seq<Record>)
  {
    forall i :: 0 <= i < |rs| ==> KeyOf(rs[i]) in content && content[KeyOf(rs[i])] == rs[i].ttl
  }

  lemma {:induction false} ReplayDels(st: State, rs: seq<Record>)
    requires DistinctKeys(rs) && NoSoa(rs) && AllHeld(st.content, rs)
    ensures Replay(st, Marks(Del, rs)) == Some(st.(content := st.content - Keys(rs)))
    decreases |rs|
  {
    if rs == [] {
      assert st.content - Keys(rs) == st.content;
    } else {
      var k := KeyOf(rs[0]);
      var next := st.(content := st.content - {k});
      assert Step(st, Marks(Del, rs)[0]) == Some(next);
      assert Marks(Del, rs)[1..] == Marks(Del, rs[1..]);
      ReplayDels(next, rs[1..]);
      KeysCons(rs);
      assert next.content - Keys(rs[1..]) == st.content - Keys(rs);
    }
  }

  lemma KeysCons(rs: seq<Record>)
    requires rs != []
    ensures Keys(rs) == {KeyOf(rs[0])} + Keys(rs[1..])
  {
    forall k | k in Keys(rs)
      ensures k in {KeyOf(rs[0])} + Keys(rs[1..])
    {
      var i :| 0 <= i < |rs| && k == KeyOf(rs[i]);
      if i > 0 { assert rs[1..][i - 1] == rs[i]; }
    }
  }

  lemma PutThenJoin(content: map<Key, nat>, k: Key, ttl: nat, more: map<Key, nat>)
    ensures content[k := ttl] + more == content + (map[k := ttl] + more)
  {
  }

  lemma TtlsCons(content: map<Key, nat>, rs: seq<Record>)
    requires rs != []
    ensures content[KeyOf(rs[0]) := rs[0].ttl] + Ttls(rs[1..]) == content + Ttls(rs)
  {
    PutThenJoin(content, KeyOf(rs[0]), rs[0].ttl, Ttls(rs[1..]));
  }

  lemma {:induction false} ReplayAdds(st: State, rs: seq<Record>)
    requires DistinctKeys(rs) && NoSoa(rs) && Keys(rs) !! st.content.Keys
    ensures Replay(st, Marks(Add, rs)) == Some(st.(content := st.content + Ttls(rs)))
    decreases |rs|
  {
    if rs == [] {
      assert st.content + Ttls(rs) == st.content;
    } else {
      KeysCons(rs);
      var next := st.(content := st.content[KeyOf(rs[0]) := rs[0].ttl]);
      assert Step(st, Marks(Add, rs)[0]) == Some(next);
      assert Marks(Add, rs)[1..] == Marks(Add, rs[1..]);
      assert KeyOf(rs[0]) !in Keys(rs[1..]);
      ReplayAdds(next, rs[1..]);
      TtlsCons(st.content, rs);
    }
  }

  /** The queue fits the content it was planned against: what leaves is there,
      and what arrives is new once that has left. */
  ghost predicate Fits(content: map<Key, nat>, c: Changes)
  {
    && NoSoa(Leaving(c)) && NoSoa(Arriving(c))
    && DistinctKeys(Leaving(c)) && DistinctKeys(Arriving(c))
    && AllHeld(content, Leaving(c))
    && Keys(Arriving(c)) !! (content.Keys - Keys(Leaving(c)))
  }

  ghost function Outcome(content: map<Key, nat>, c: Changes): map<Key, nat>
    requires Fits(content, c)
  {
    content - Keys(Leaving(c)) + Ttls(Arriving(c))
  }

  /** Key by key: what arrives is there as it arrives, what only leaves is gone,
      and the rest is as it was. */
  lemma OutcomeAt(content: map<Key, nat>, c: Changes, k: Key)
    requires Fits(content, c)
    ensures k in Outcome(content, c) <==> k in Keys(Arriving(c)) || (k in content && k !in Keys(Leaving(c)))
    ensures forall i :: 0 <= i < |Arriving(c)| && KeyOf(Arriving(c)[i]) == k ==>
              Outcome(content, c)[k] == Arriving(c)[i].ttl
    ensures k in Outcome(content, c) && k !in Keys(Arriving(c)) ==> Outcome(content, c)[k] == content[k]
  {
    TtlsAt(Arriving(c));
  }

  /** A commit's events carry the queue out. */
  lemma EventsCarryOut(st: State, c: Changes)
    requires Fits(st.content, c)
    ensures Replay(st, EventsOf(c)) == Some(st.(content := Outcome(st.content, c)))
  {
    var dels, adds := Marks(Del, Leaving(c)), Marks(Add, Arriving(c));
    ReplayIgnoresNumbers(st, EventsOf(c), dels + adds);
    ReplayConcat(st, dels, adds);
    ReplayDels(st, Leaving(c));
    var mid := st.(content := st.content - Keys(Leaving(c)));
    assert mid.content.Keys == st.content.Keys - Keys(Leaving(c));
    ReplayAdds(mid, Arriving(c));
  }

  /** With a start of authority folded in, they carry that out as well. */
  lemma FoldedEventsCarryOut(st: State, c: Changes, was: Event, now: Event)
    requires Fits(st.content, c)
    requires was.op == Del && was.typ == SOA && st.soa.Some? && SoaOf(was) == st.soa
    requires now.op == Add && now.typ == SOA && SoaOf(now).Some?
    ensures Replay(st, FoldSoa(EventsOf(c), was, now)) ==
            Some(State(Outcome(st.content, c), SoaOf(now)))
  {
    var dels, adds := Marks(Del, Leaving(c)), Marks(Add, Arriving(c));
    FoldedIsHalves(c, was, now, dels, adds);
    ReplayIgnoresNumbers(st, FoldSoa(EventsOf(c), was, now), ([was] + dels) + ([now] + adds));
    HalvesCarryOut(st, c, was, now, dels, adds);
  }

  lemma FoldedIsHalves(c: Changes, was: Event, now: Event, dels: seq<Event>, adds: seq<Event>)
    requires dels == Marks(Del, Leaving(c)) && adds == Marks(Add, Arriving(c))
    ensures SameButNumbers(FoldSoa(EventsOf(c), was, now), ([was] + dels) + ([now] + adds))
  {
    FirstAddOfHalves(EventsOf(c), |dels|);
  }

  lemma HalvesCarryOut(st: State, c: Changes, was: Event, now: Event, dels: seq<Event>, adds: seq<Event>)
    requires Fits(st.content, c) && dels == Marks(Del, Leaving(c)) && adds == Marks(Add, Arriving(c))
    requires was.op == Del && was.typ == SOA && st.soa.Some? && SoaOf(was) == st.soa
    requires now.op == Add && now.typ == SOA && SoaOf(now).Some?
    ensures Replay(st, ([was] + dels) + ([now] + adds)) == Some(State(Outcome(st.content, c), SoaOf(now)))
  {
    ReplayConcat(st, [was] + dels, [now] + adds);
    var bare := st.(soa := None);
    assert ([was] + dels)[1..] == dels;
    assert Replay(st, [was] + dels) == Replay(bare, dels);
    ReplayDels(bare, Leaving(c));
    var mid := bare.(content := bare.content - Keys(Leaving(c)));
    assert mid.content.Keys == st.content.Keys - Keys(Leaving(c));
    assert ([now] + adds)[1..] == adds;
    assert Replay(mid, [now] + adds) == Replay(mid.(soa := SoaOf(now)), adds);
    ReplayAdds(mid.(soa := SoaOf(now)), Arriving(c));
  }

  lemma FirstAddOfHalves(es: seq<Event>, n: nat)
    requires n <= |es|
    requires forall i :: 0 <= i < n ==> es[i].op == Del
    requires forall i :: n <= i < |es| ==> es[i].op == Add
    ensures FirstAdd(es) == n
  {
    var i := FirstAdd(es);
    assert i < |es| ==> es[i].op == Add;
    assert n < |es| ==> es[n].op == Add;
  }
}
