/** Restoring a zone to an earlier state by moving forward to it. */
module Rollback {
  import opened Dns
  import opened Journal
  import opened Changes
  import opened Chain

  /** The records a zone holds, by what makes them that record. */
  type Held = m: map<Key, Record> | forall k :: k in m ==> KeyOf(m[k]) == k && m[k].typ != SOA

  ghost function Content(held: Held): map<Key, nat>
  {
    map k | k in held :: held[k].ttl
  }

  ghost function StateOf(held: Held, soa: Soa): State
  {
    State(Content(held), Some(soa.(serial := 0)))
  }

  predicate Generated(held: Held, k: Key)
  {
    k in held && held[k].managedBy.Some?
  }

  // -------------------------------------------------- reading the range

  /** The first event on every key. */
  ghost predicate FirstEvents(es: seq<Event>, at: map<Key, Event>)
  {
    forall k :: match FirstFor(es, k)
                case Some(e) => k in at && at[k] == e
                case None => k !in at
  }

  lemma {:induction false} FirstForSnoc(es: seq<Event>, e: Event, k: Key)
    ensures FirstFor(es + [e], k) ==
            if FirstFor(es, k).Some? then FirstFor(es, k)
            else if e.typ != SOA && EventKey(e) == k then Some(e) else None
  {
    if es == [] {
      assert (es + [e])[1..] == [];
    } else {
      assert (es + [e])[1..] == es[1..] + [e];
      FirstForSnoc(es[1..], e, k);
    }
  }

  lemma {:induction false} FirstSoaDelSnoc(es: seq<Event>, e: Event)
    ensures FirstSoaDel(es + [e]) ==
            if FirstSoaDel(es).Some? then FirstSoaDel(es)
            else if e.typ == SOA && e.op == Del then Some(e) else None
  {
    if es == [] {
      assert (es + [e])[1..] == [];
    } else {
      assert (es + [e])[1..] == es[1..] + [e];
      FirstSoaDelSnoc(es[1..], e);
    }
  }

  method ReadCommit(at0: map<Key, Event>, soa0: Option<Event>, ghost read: seq<Event>, es: seq<Event>)
    returns (at: map<Key, Event>, soaAt: Option<Event>)
    requires FirstEvents(read, at0) && soa0 == FirstSoaDel(read)
    ensures FirstEvents(read + es, at) && soaAt == FirstSoaDel(read + es)
  {
    at, soaAt := at0, soa0;
    assert read + es[..0] == read;
    for i := 0 to |es|
      invariant FirstEvents(read + es[..i], at)
      invariant soaAt == FirstSoaDel(read + es[..i])
    {
      assert read + es[..i + 1] == read + es[..i] + [es[i]];
      FirstSoaDelSnoc(read + es[..i], es[i]);
      forall k
        ensures FirstFor(read + es[..i + 1], k) ==
                if FirstFor(read + es[..i], k).Some? then FirstFor(read + es[..i], k)
                else if es[i].typ != SOA && EventKey(es[i]) == k then Some(es[i]) else None
      {
        FirstForSnoc(read + es[..i], es[i], k);
      }
      if es[i].typ == SOA {
        if soaAt == None && es[i].op == Del {
          soaAt := Some(es[i]);
        }
      } else if EventKey(es[i]) !in at {
        at := at[EventKey(es[i]) := es[i]];
      }
    }
    assert es[..|es|] == es;
  }

  method ReadRange(since: seq<Commit>) returns (at: map<Key, Event>, soaAt: Option<Event>)
    ensures FirstEvents(Events(since), at)
    ensures soaAt == FirstSoaDel(Events(since))
  {
    at, soaAt := map[], None;
    for i := 0 to |since|
      invariant FirstEvents(Events(since[..i]), at)
      invariant soaAt == FirstSoaDel(Events(since[..i]))
    {
      assert since[..i + 1] == since[..i] + [since[i]];
      EventsConcat(since[..i], [since[i]]);
      assert Events([since[i]]) == since[i].events;
      at, soaAt := ReadCommit(at, soaAt, Events(since[..i]), since[i].events);
    }
    assert since[..|since|] == since;
  }

  // -------------------------------------------------- queueing the difference

  /** What a key's record needs to be back as its first event says it was. */
  datatype Need = Nothing | Away | Lifetime | Back

  function NeedOf(held: Held, k: Key, e: Event): Need
  {
    if Generated(held, k) then Nothing
    else if e.op == Add then (if k in held then Away else Nothing)
    else if k !in held then Back
    else if held[k].ttl != e.ttl then Lifetime
    else Nothing
  }

  /** A record put back is written by hand as far as the store is concerned: it
      carries no link, whatever the record it stands for carried. */
  function Restored(z: ZoneId, k: Key, ttl: nat, id: RecordId): Record
  {
    Record(id, z, k.name, k.cls, k.typ, ttl, k.data, None, None, "", false)
  }

  function UndoOne(ch: Changes, z: ZoneId, held: Held, k: Key, e: Event, id: RecordId): Changes
  {
    match NeedOf(held, k, e)
    case Nothing => ch
    case Away => ch.Remove(held[k])
    case Lifetime => ch.Replace(held[k], held[k].(ttl := e.ttl))
    case Back => ch.Insert(Restored(z, k, e.ttl, id))
  }

  ghost predicate Needs(held: Held, at: map<Key, Event>, k: Key, n: Need)
  {
    k in at && NeedOf(held, k, at[k]) == n
  }

  ghost predicate RightDelete(held: Held, at: map<Key, Event>, done: set<Key>, d: Record)
  {
    var k := KeyOf(d);
    k in done && Needs(held, at, k, Away) && d == held[k]
  }

  ghost predicate RightUpdate(held: Held, at: map<Key, Event>, done: set<Key>, u: Update)
  {
    var k := KeyOf(u.before);
    k in done && Needs(held, at, k, Lifetime) && u.before == held[k] && u.after == held[k].(ttl := at[k].ttl)
  }

  ghost predicate RightInsert(held: Held, at: map<Key, Event>, done: set<Key>, r: Record)
  {
    var k := KeyOf(r);
    k in done && Needs(held, at, k, Back) && r.ttl == at[k].ttl
  }

  /** The queue holds only what the keys seen so far need, each once. */
  ghost predicate OnlyNeeded(held: Held, at: map<Key, Event>, done: set<Key>, ch: Changes)
  {
    && DistinctKeys(ch.deletes) && DistinctKeys(Befores(ch.updates)) && DistinctKeys(ch.inserts)
    && (forall i :: 0 <= i < |ch.deletes| ==> RightDelete(held, at, done, ch.deletes[i]))
    && (forall i :: 0 <= i < |ch.updates| ==> RightUpdate(held, at, done, ch.updates[i]))
    && (forall i :: 0 <= i < |ch.inserts| ==> RightInsert(held, at, done, ch.inserts[i]))
  }

  /** And everything they need. */
  ghost predicate AllNeeded(held: Held, at: map<Key, Event>, done: set<Key>, ch: Changes)
  {
    forall k :: k in done && k in at ==>
      match NeedOf(held, k, at[k])
      case Nothing => true
      case Away => k in Keys(ch.deletes)
      case Lifetime => k in Keys(Befores(ch.updates))
      case Back => k in Keys(ch.inserts)
  }

  lemma UndoOneOnly(held: Held, at: map<Key, Event>, done: set<Key>, ch: Changes, z: ZoneId, k: Key, id: RecordId)
    requires OnlyNeeded(held, at, done, ch) && k in at && k !in done
    ensures OnlyNeeded(held, at, done + {k}, UndoOne(ch, z, held, k, at[k], id))
  {
    if NeedOf(held, k, at[k]) == Lifetime {
      var u := Update(held[k], held[k].(ttl := at[k].ttl));
      assert Befores(ch.updates + [u]) == Befores(ch.updates) + [u.before];
    }
  }

  lemma UndoOneAll(held: Held, at: map<Key, Event>, done: set<Key>, ch: Changes, z: ZoneId, k: Key, id: RecordId)
    requires AllNeeded(held, at, done, ch) && k in at && k !in done
    ensures AllNeeded(held, at, done + {k}, UndoOne(ch, z, held, k, at[k], id))
  {
    match NeedOf(held, k, at[k])
    case Nothing =>
    case Away => KeysSnoc(ch.deletes, held[k]);
    case Lifetime =>
      var u := Update(held[k], held[k].(ttl := at[k].ttl));
      assert Befores(ch.updates + [u]) == Befores(ch.updates) + [u.before];
      KeysSnoc(Befores(ch.updates), u.before);
    case Back => KeysSnoc(ch.inserts, Restored(z, k, at[k].ttl, id));
  }

  lemma KeysSnoc(rs: seq<Record>, r: Record)
    ensures Keys(rs + [r]) == Keys(rs) + {KeyOf(r)}
  {
    assert (rs + [r])[|rs|] == r;
    forall i | 0 <= i < |rs|
      ensures KeyOf(rs[i]) in Keys(rs + [r])
    {
      assert (rs + [r])[i] == rs[i];
    }
  }

  // -------------------------------------------------------- what it restores

  lemma {:induction false} FirstForKey(es: seq<Event>, k: Key)
    ensures FirstFor(es, k).Some? ==> FirstFor(es, k).value.typ != SOA && EventKey(FirstFor(es, k).value) == k
  {
    if es != [] { FirstForKey(es[1..], k); }
  }

  /** What leaves is held. */
  lemma UndoneLeaves(held: Held, at: map<Key, Event>, ch: Changes, i: nat)
    requires OnlyNeeded(held, at, at.Keys, ch) && i < |Leaving(ch)|
    ensures var r := Leaving(ch)[i]; KeyOf(r) in held && r == held[KeyOf(r)]
  {
    var nd := |ch.deletes|;
    if i < nd { assert RightDelete(held, at, at.Keys, ch.deletes[i]); }
    else { assert RightUpdate(held, at, at.Keys, ch.updates[i - nd]); }
  }

  /** What arrives where something is held takes the place of what leaves. */
  lemma UndoneArrives(es: seq<Event>, held: Held, at: map<Key, Event>, ch: Changes, i: nat)
    requires FirstEvents(es, at) && OnlyNeeded(held, at, at.Keys, ch) && i < |Arriving(ch)|
    ensures Arriving(ch)[i].typ != SOA
    ensures KeyOf(Arriving(ch)[i]) in held ==> KeyOf(Arriving(ch)[i]) in Keys(Leaving(ch))
  {
    var nd, nu := |ch.deletes|, |ch.updates|;
    if i < nu {
      assert RightUpdate(held, at, at.Keys, ch.updates[i]);
      assert Leaving(ch)[nd + i] == ch.updates[i].before;
    } else {
      assert RightInsert(held, at, at.Keys, ch.inserts[i - nu]);
      FirstForKey(es, KeyOf(Arriving(ch)[i]));
    }
  }

  /** No key leaves twice or arrives twice, because each needs one thing. */
  lemma UndoneFits(es: seq<Event>, held: Held, at: map<Key, Event>, ch: Changes)
    requires FirstEvents(es, at) && OnlyNeeded(held, at, at.Keys, ch)
    ensures Fits(Content(held), ch)
  {
    forall i | 0 <= i < |Leaving(ch)|
      ensures var r := Leaving(ch)[i]; KeyOf(r) in held && r == held[KeyOf(r)]
    {
      UndoneLeaves(held, at, ch, i);
    }
    forall i | 0 <= i < |Arriving(ch)|
      ensures Arriving(ch)[i].typ != SOA
      ensures KeyOf(Arriving(ch)[i]) in held ==> KeyOf(Arriving(ch)[i]) in Keys(Leaving(ch))
    {
      UndoneArrives(es, held, at, ch, i);
    }
    UndoneDistinct(held, at, ch);
  }

  lemma UndoneDistinct(held: Held, at: map<Key, Event>, ch: Changes)
    requires OnlyNeeded(held, at, at.Keys, ch)
    ensures DistinctKeys(Leaving(ch)) && DistinctKeys(Arriving(ch))
  {
    var out, back := Leaving(ch), Arriving(ch);
    var nd, nu := |ch.deletes|, |ch.updates|;
    forall i, j | 0 <= i < j < |out|
      ensures KeyOf(out[i]) != KeyOf(out[j])
    {
      if i < nd <= j {
        assert RightDelete(held, at, at.Keys, ch.deletes[i]);
        assert RightUpdate(held, at, at.Keys, ch.updates[j - nd]);
      } else if nd <= i {
        assert KeyOf(Befores(ch.updates)[i - nd]) != KeyOf(Befores(ch.updates)[j - nd]);
      }
    }
    forall i, j | 0 <= i < j < |back|
      ensures KeyOf(back[i]) != KeyOf(back[j])
    {
      if i < nu { assert RightUpdate(held, at, at.Keys, ch.updates[i]); }
      if j < nu {
        assert RightUpdate(held, at, at.Keys, ch.updates[j]);
        assert KeyOf(Befores(ch.updates)[i]) != KeyOf(Befores(ch.updates)[j]);
      } else {
        assert RightInsert(held, at, at.Keys, ch.inserts[j - nu]);
        if nu <= i { assert KeyOf(ch.inserts[i - nu]) != KeyOf(ch.inserts[j - nu]); }
      }
    }
  }

  /** Carrying the queue out gives every key the record it had when the range
      began, except where the record now there is generated: that one stays. */
  ghost predicate Restores(start: State, held: Held, ch: Changes)
    requires Fits(Content(held), ch)
  {
    var after := State(Outcome(Content(held), ch), None);
    forall k :: SameAt(after, if Generated(held, k) then State(Content(held), None) else start, k)
  }

  lemma UndoneRestores(start: State, es: seq<Event>, held: Held, soa: Soa, at: map<Key, Event>, ch: Changes)
    requires Replay(start, es) == Some(StateOf(held, soa))
    requires FirstEvents(es, at)
    requires OnlyNeeded(held, at, at.Keys, ch) && AllNeeded(held, at, at.Keys, ch)
    ensures Fits(Content(held), ch) && Restores(start, held, ch)
  {
    UndoneFits(es, held, at, ch);
    var after := State(Outcome(Content(held), ch), None);
    forall k
      ensures SameAt(after, if Generated(held, k) then State(Content(held), None) else start, k)
    {
      UndoneRestoresKey(start, es, held, soa, at, ch, k);
    }
  }

  /** What is queued for a key is what the key needs. */
  lemma LeavingFor(held: Held, at: map<Key, Event>, ch: Changes, k: Key)
    requires OnlyNeeded(held, at, at.Keys, ch) && AllNeeded(held, at, at.Keys, ch)
    ensures k in Keys(Leaving(ch)) <==> Needs(held, at, k, Away) || Needs(held, at, k, Lifetime)
  {
    var out, nd := Leaving(ch), |ch.deletes|;
    forall i | 0 <= i < |out| && KeyOf(out[i]) == k
      ensures Needs(held, at, k, Away) || Needs(held, at, k, Lifetime)
    {
      if i < nd { assert RightDelete(held, at, at.Keys, ch.deletes[i]); }
      else { assert RightUpdate(held, at, at.Keys, ch.updates[i - nd]); }
    }
    if Needs(held, at, k, Away) {
      var i :| 0 <= i < nd && KeyOf(ch.deletes[i]) == k;
      assert out[i] == ch.deletes[i];
    }
    if Needs(held, at, k, Lifetime) {
      var i :| 0 <= i < |ch.updates| && KeyOf(Befores(ch.updates)[i]) == k;
      assert out[nd + i] == ch.updates[i].before;
    }
  }

  lemma ArrivingFor(held: Held, at: map<Key, Event>, ch: Changes, k: Key)
    requires OnlyNeeded(held, at, at.Keys, ch) && AllNeeded(held, at, at.Keys, ch)
    ensures k in Keys(Arriving(ch)) <==> Needs(held, at, k, Lifetime) || Needs(held, at, k, Back)
    ensures forall i :: 0 <= i < |Arriving(ch)| && KeyOf(Arriving(ch)[i]) == k ==>
              k in at && Arriving(ch)[i].ttl == at[k].ttl
  {
    var back, nu := Arriving(ch), |ch.updates|;
    forall i | 0 <= i < |back| && KeyOf(back[i]) == k
      ensures (Needs(held, at, k, Lifetime) || Needs(held, at, k, Back)) && back[i].ttl == at[k].ttl
    {
      if i < nu { assert RightUpdate(held, at, at.Keys, ch.updates[i]); }
      else { assert RightInsert(held, at, at.Keys, ch.inserts[i - nu]); }
    }
    if Needs(held, at, k, Lifetime) {
      var i :| 0 <= i < nu && KeyOf(Befores(ch.updates)[i]) == k;
      assert RightUpdate(held, at, at.Keys, ch.updates[i]);
      assert back[i] == ch.updates[i].after;
    }
    if Needs(held, at, k, Back) {
      var i :| 0 <= i < |ch.inserts| && KeyOf(ch.inserts[i]) == k;
      assert back[nu + i] == ch.inserts[i];
    }
  }

  lemma UndoneRestoresKey(start: State, es: seq<Event>, held: Held, soa: Soa, at: map<Key, Event>, ch: Changes, k: Key)
    requires Replay(start, es) == Some(StateOf(held, soa))
    requires FirstEvents(es, at)
    requires OnlyNeeded(held, at, at.Keys, ch) && AllNeeded(held, at, at.Keys, ch)
    requires Fits(Content(held), ch)
    ensures SameAt(State(Outcome(Content(held), ch), None),
                   if Generated(held, k) then State(Content(held), None) else start, k)
  {
    FirstEventDecides(start, es, k);
    LeavingFor(held, at, ch, k);
    ArrivingFor(held, at, ch, k);
    OutcomeAt(Content(held), ch, k);
    if k in Keys(Arriving(ch)) {
      var i :| 0 <= i < |Arriving(ch)| && KeyOf(Arriving(ch)[i]) == k;
      assert Outcome(Content(held), ch)[k] == Arriving(ch)[i].ttl;
    }
  }

  // ------------------------------------------------------------ the operation

  /** The start of authority the zone has once the queue is carried out. */
  function SoaAfter(z: Zone, ch: Changes): Soa
  {
    if ch.soa.Some? then ch.soa.value.after else z.soa
  }

  /** What the queue is made of: records the zone holds and nobody generated, taken
      out or given another lifetime, and records put back as new ones, by hand as far
      as the store is concerned, under identifiers of their own. */
  ghost predicate Handles(z: ZoneId, held: Held, first: RecordId, next: RecordId, ch: Changes)
  {
    && first <= next && ch.claims == []
    && (forall i :: 0 <= i < |ch.deletes| ==> Own(held, ch.deletes[i]))
    && (forall i :: 0 <= i < |ch.updates| ==> Own(held, ch.updates[i].before) && Retimed(ch.updates[i]))
    && (forall i :: 0 <= i < |ch.inserts| ==> first <= ch.inserts[i].id < next && PutBack(z, ch.inserts[i]))
  }

  ghost predicate Own(held: Held, r: Record)
  {
    KeyOf(r) in held && held[KeyOf(r)] == r && r.managedBy.None?
  }

  ghost predicate Retimed(u: Update)
  {
    u.after == u.before.(ttl := u.after.ttl)
  }

  ghost predicate PutBack(z: ZoneId, r: Record)
  {
    r == Restored(z, KeyOf(r), r.ttl, r.id)
  }

  /** Part way through the keys. */
  ghost predicate Undoing(z: ZoneId, held: Held, at: map<Key, Event>, done: set<Key>, first: RecordId, next: RecordId, ch: Changes)
  {
    OnlyNeeded(held, at, done, ch) && AllNeeded(held, at, done, ch) && Handles(z, held, first, next, ch) && InStep(ch)
  }

  lemma UndoOneInStep(ch: Changes, z: ZoneId, held: Held, k: Key, e: Event, id: RecordId)
    requires InStep(ch)
    ensures InStep(UndoOne(ch, z, held, k, e, id))
  {
    match NeedOf(held, k, e)
    case Nothing =>
    case Away => RemoveInStep(ch, held[k]);
    case Lifetime => ReplaceInStep(ch, held[k], held[k].(ttl := e.ttl));
    case Back => InsertInStep(ch, Restored(z, k, e.ttl, id));
  }

  lemma UndoOneMore(z: ZoneId, held: Held, at: map<Key, Event>, todo: set<Key>, first: RecordId, id: RecordId, ch: Changes, k: Key)
    requires Undoing(z, held, at, at.Keys - todo, first, id, ch) && k in at && k in todo
    ensures Undoing(z, held, at, at.Keys - (todo - {k}), first, id + 1, UndoOne(ch, z, held, k, at[k], id))
  {
    UndoOneOnly(held, at, at.Keys - todo, ch, z, k, id);
    UndoOneAll(held, at, at.Keys - todo, ch, z, k, id);
    UndoOneHandles(held, ch, z, k, at[k], first, id);
    UndoOneInStep(ch, z, held, k, at[k], id);
    assert at.Keys - todo + {k} == at.Keys - (todo - {k});
  }

  lemma UndoOneHandles(held: Held, ch: Changes, z: ZoneId, k: Key, e: Event, first: RecordId, id: RecordId)
    requires Handles(z, held, first, id, ch)
    ensures Handles(z, held, first, id + 1, UndoOne(ch, z, held, k, e, id))
  {
  }

  /** Of these keys, those that have to come back can. */
  ghost predicate Writable(held: Held, at: map<Key, Event>, done: set<Key>, parses: Key -> bool)
  {
    forall k :: k in done && k in at && NeedOf(held, k, at[k]) == Back ==> parses(k)
  }

  lemma UnwritableIs(held: Held, es: seq<Event>, at: map<Key, Event>, parses: Key -> bool, k: Key)
    requires FirstEvents(es, at)
    ensures Unwritable(held, es, parses, k) <==> k in at && NeedOf(held, k, at[k]) == Back && !parses(k)
  {
  }

  lemma WritableIff(held: Held, es: seq<Event>, at: map<Key, Event>, parses: Key -> bool)
    requires FirstEvents(es, at)
    ensures Writable(held, at, at.Keys, parses) <==> forall k :: !Unwritable(held, es, parses, k)
  {
    forall k
      ensures Unwritable(held, es, parses, k) <==> k in at && NeedOf(held, k, at[k]) == Back && !parses(k)
    {
      UnwritableIs(held, es, at, parses, k);
    }
  }

  /** Goes through the keys in whatever order they come. */
  method UndoEach(z: ZoneId, held: Held, at: map<Key, Event>, parses: Key -> bool, soa: Changes, mint: RecordId)
    returns (r: Result<Changes>, next: RecordId)
    requires Undoing(z, held, at, {}, mint, mint, soa)
    ensures r.Ok? ==> Undoing(z, held, at, at.Keys, mint, next, r.value) && r.value.soa == soa.soa
    ensures r.Ok? <==> Writable(held, at, at.Keys, parses)
    ensures r.Err? ==> r.reason == Invalid
  {
    var ch := soa;
    next := mint;
    var todo := at.Keys;
    assert at.Keys - todo == {};
    while todo != {}
      invariant todo <= at.Keys && ch.soa == soa.soa
      invariant Undoing(z, held, at, at.Keys - todo, mint, next, ch)
      invariant Writable(held, at, at.Keys - todo, parses)
      decreases todo
    {
      var k :| k in todo;
      if NeedOf(held, k, at[k]) == Back && !parses(k) { return Err(Invalid), next; }
      UndoOneMore(z, held, at, todo, mint, next, ch, k);
      ch := UndoOne(ch, z, held, k, at[k], next);
      next := next + 1;
      todo := todo - {k};
    }
    assert at.Keys - todo == at.Keys;
    return Ok(ch), next;
  }

  /** Queues the difference between a zone as it stands and as it stood when the
      commits of the range began. A record that cannot be written any more is refused. */
  method Undo(z: Zone, held: Held, since: seq<Commit>, parses: Key -> bool, mint: RecordId)
    returns (r: Result<Changes>, next: RecordId)
    ensures r.Ok? ==> UndoesTo(z, held, Events(since), r.value) && Handles(z.id, held, mint, next, r.value)
    ensures r.Err? <==> exists k :: Unwritable(held, Events(since), parses, k)
    ensures r.Err? ==> r.reason == Invalid
    ensures r.Ok? ==> InStep(r.value)
  {
    var at, soaAt := ReadRange(since);
    var soa := NO_CHANGES.(soa := SoaNeeded(z, soaAt));
    r, next := UndoEach(z.id, held, at, parses, soa, mint);
    WritableIff(held, Events(since), at, parses);
    if r.Ok? { UndoneUndoes(z, held, Events(since), at, soaAt, r.value); }
  }

  /** The queue fits the zone, and from whatever state the events led to the zone
      as it stands, it leads back there, key by key with no more than that takes. */
  ghost predicate UndoesTo(z: Zone, held: Held, es: seq<Event>, ch: Changes)
  {
    && Fits(Content(held), ch)
    && (ch.soa.Some? ==> ch.soa.value.before == z.soa)
    && forall start: State :: Replay(start, es) == Some(StateOf(held, z.soa)) ==>
         && Restores(start, held, ch) && Spends(start, held, ch)
         && (start.soa.Some? ==> SoaAfter(z, ch).(serial := 0) == start.soa.value)
  }

  /** A record is put back exactly where one was and none is, taken out exactly where
      none was and one is that nobody generated, and given another lifetime exactly
      where only that differs. */
  ghost predicate Spends(start: State, held: Held, ch: Changes)
  {
    forall k ::
      && (k in Keys(ch.inserts) <==> k in start.content && k !in held)
      && (k in Keys(ch.deletes) <==> k !in start.content && k in held && !Generated(held, k))
      && (k in Keys(Befores(ch.updates)) <==>
            k in start.content && k in held && !Generated(held, k) && held[k].ttl != start.content[k])
  }

  lemma UndoneSpends(start: State, es: seq<Event>, held: Held, soa: Soa, at: map<Key, Event>, ch: Changes)
    requires Replay(start, es) == Some(StateOf(held, soa)) && FirstEvents(es, at)
    requires OnlyNeeded(held, at, at.Keys, ch) && AllNeeded(held, at, at.Keys, ch)
    ensures Spends(start, held, ch)
  {
    forall k
      ensures k in Keys(ch.inserts) <==> k in start.content && k !in held
      ensures k in Keys(ch.deletes) <==> k !in start.content && k in held && !Generated(held, k)
      ensures k in Keys(Befores(ch.updates)) <==>
              k in start.content && k in held && !Generated(held, k) && held[k].ttl != start.content[k]
    {
      FirstEventDecides(start, es, k);
      QueuedFor(held, at, ch, k);
    }
  }

  /** What is queued for a key is what the key needs, queue by queue. */
  lemma QueuedFor(held: Held, at: map<Key, Event>, ch: Changes, k: Key)
    requires OnlyNeeded(held, at, at.Keys, ch) && AllNeeded(held, at, at.Keys, ch)
    ensures k in Keys(ch.inserts) <==> Needs(held, at, k, Back)
    ensures k in Keys(ch.deletes) <==> Needs(held, at, k, Away)
    ensures k in Keys(Befores(ch.updates)) <==> Needs(held, at, k, Lifetime)
  {
    if k in Keys(ch.inserts) {
      var i :| 0 <= i < |ch.inserts| && KeyOf(ch.inserts[i]) == k;
      assert RightInsert(held, at, at.Keys, ch.inserts[i]);
    }
    if k in Keys(ch.deletes) {
      var i :| 0 <= i < |ch.deletes| && KeyOf(ch.deletes[i]) == k;
      assert RightDelete(held, at, at.Keys, ch.deletes[i]);
    }
    if k in Keys(Befores(ch.updates)) {
      var i :| 0 <= i < |ch.updates| && KeyOf(Befores(ch.updates)[i]) == k;
      assert RightUpdate(held, at, at.Keys, ch.updates[i]);
    }
  }

  /** A record that was generated then comes back if and only if it is gone, and comes
      back by hand: the journal does not say where a record came from. */
  lemma GeneratedComesBackIff(z: Zone, held: Held, es: seq<Event>, first: RecordId, next: RecordId, ch: Changes, was: Held, soa: Option<Soa>, k: Key)
    requires UndoesTo(z, held, es, ch) && Handles(z.id, held, first, next, ch)
    requires Replay(State(Content(was), soa), es) == Some(StateOf(held, z.soa)) && Generated(was, k)
    ensures k in Keys(ch.inserts) <==> k !in held
    ensures forall i :: 0 <= i < |ch.inserts| ==> ch.inserts[i].managedBy.None?
  {
    assert Spends(State(Content(was), soa), held, ch);
    assert forall i :: 0 <= i < |ch.inserts| ==> PutBack(z.id, ch.inserts[i]);
  }

  /** The change of the start of authority the first removal of it asks for. */
  function SoaNeeded(z: Zone, soaAt: Option<Event>): Option<SoaChange>
  {
    match soaAt
    case None => None
    case Some(e) =>
      match SoaOf(e)
      case None => None
      case Some(p) =>
        var was := p.(serial := z.soa.serial);
        if SameSoa(z.soa, was) then None else Some(SoaChange(z.soa, was))
  }

  lemma UndoneUndoes(z: Zone, held: Held, es: seq<Event>, at: map<Key, Event>, soaAt: Option<Event>, ch: Changes)
    requires FirstEvents(es, at) && soaAt == FirstSoaDel(es)
    requires OnlyNeeded(held, at, at.Keys, ch) && AllNeeded(held, at, at.Keys, ch)
    requires ch.soa == SoaNeeded(z, soaAt)
    ensures UndoesTo(z, held, es, ch)
  {
    UndoneFits(es, held, at, ch);
    forall start: State | Replay(start, es) == Some(StateOf(held, z.soa))
      ensures Restores(start, held, ch) && Spends(start, held, ch)
      ensures start.soa.Some? ==> SoaAfter(z, ch).(serial := 0) == start.soa.value
    {
      UndoneRestores(start, es, held, z.soa, at, ch);
      UndoneSpends(start, es, held, z.soa, at, ch);
      if start.soa.Some? { SoaComesBack(z, held, es, start, ch); }
    }
  }

  lemma SoaComesBack(z: Zone, held: Held, es: seq<Event>, start: State, ch: Changes)
    requires start.soa.Some? && Replay(start, es) == Some(StateOf(held, z.soa))
    requires ch.soa == SoaNeeded(z, FirstSoaDel(es))
    ensures SoaAfter(z, ch).(serial := 0) == start.soa.value
  {
    FirstSoaDelDecides(start, es);
  }

  /** A record the target held, gone since, whose data no longer parses. */
  ghost predicate Unwritable(held: Held, es: seq<Event>, parses: Key -> bool, k: Key)
  {
    var first := FirstFor(es, k);
    first.Some? && NeedOf(held, k, first.value) == Back && !parses(k)
  }

  // ----------------------------------------------------- from end to end

  /** The history of a zone: one commit after another, each serial produced once,
      replaying to what the zone now holds. */
  ghost predicate HistoryOf(history: seq<Commit>, z: Zone, held: Held)
  {
    && history != [] && Chained(history)
    && EachOnce(history)
    && history[|history| - 1].serialTo == z.soa.serial
    && Replay(EMPTY, Events(history)) == Some(StateOf(held, z.soa))
  }

  ghost predicate EachOnce(history: seq<Commit>)
  {
    forall i, j :: 0 <= i < j < |history| ==> history[i].serialTo != history[j].serialTo
  }

  /** A listing of the history, in any order and any pages. */
  ghost predicate Lists(pages: seq<seq<Commit>>, history: seq<Commit>)
  {
    pages != [] && multiset(Flat(pages)) == multiset(history)
  }

  /** What the zone was when a commit of its history had been recorded. */
  ghost function StateAt(history: seq<Commit>, i: nat): Option<State>
    requires i < |history|
  {
    Replay(EMPTY, Events(history[..i + 1]))
  }

  lemma SplitHistory(history: seq<Commit>, i: nat)
    requires i < |history| && Replay(EMPTY, Events(history)).Some?
    ensures StateAt(history, i).Some?
    ensures Replay(StateAt(history, i).value, Events(history[i + 1..])) == Replay(EMPTY, Events(history))
  {
    var a, b := history[..i + 1], history[i + 1..];
    assert history == a + b;
    EventsConcat(a, b);
    ReplayConcat(EMPTY, Events(a), Events(b));
  }

  lemma {:induction false} EndsOfListing(listing: seq<Commit>)
    ensures forall s :: s in EndsOf(listing) ==> EndsOf(listing)[s] in listing
    ensures forall c :: c in listing ==> c.serialTo in EndsOf(listing)
    decreases |listing|
  {
    if listing != [] {
      var n := |listing| - 1;
      EndsOfListing(listing[..n]);
      assert listing == listing[..n] + [listing[n]];
    }
  }

  /** The map leads to every commit of the history, and to nothing else. */
  ghost predicate Indexes(ends: Ends, history: seq<Commit>)
  {
    && (forall i :: 0 <= i < |history| ==>
          history[i].serialTo in ends && ends[history[i].serialTo] == history[i])
    && (forall s :: s in ends ==> ends[s] in history)
  }

  /** Every serial of the history leads to the commit that produced it. */
  lemma EndsOfHistory(pages: seq<seq<Commit>>, history: seq<Commit>, z: Zone, held: Held)
    requires HistoryOf(history, z, held) && Lists(pages, history)
    ensures Indexes(EndsOf(Flat(pages)), history)
  {
    var listing := Flat(pages);
    EndsOfListing(listing);
    assert forall c :: c in listing <==> c in multiset(listing);
    assert forall c :: c in history <==> c in multiset(history);
    forall i | 0 <= i < |history|
      ensures history[i].serialTo in EndsOf(listing) && EndsOf(listing)[history[i].serialTo] == history[i]
    {
      assert history[i] in history;
      var c := EndsOf(listing)[history[i].serialTo];
      assert c in history;
      var j :| 0 <= j < |history| && history[j] == c;
      assert history[i].serialTo == history[j].serialTo;
    }
  }

  /** Stepping back from the last commit, the serials name the history itself. */
  lemma {:induction false} WalkHistory(ends: Ends, history: seq<Commit>, k: nat)
    requires k < |history| && Chained(history) && Indexes(ends, history)
    ensures Walk(ends, history[|history| - 1].serialTo, k) == Some(history[|history| - 1 - k].serialTo)
    decreases k
  {
    if k > 0 {
      WalkHistory(ends, history, k - 1);
      assert history[|history| - k].serialFrom == history[|history| - k - 1].serialTo;
    }
  }

  lemma ChainLength(ends: Ends, history: seq<Commit>, i: nat, n: nat)
    requires i < |history| && Chained(history) && Indexes(ends, history) && EachOnce(history)
    requires FirstAt(ends, history[i].serialTo, history[|history| - 1].serialTo, n)
    ensures n == |history| - 1 - i
  {
    WalkHistory(ends, history, |history| - 1 - i);
    if n < |history| - 1 - i {
      WalkHistory(ends, history, n);
    }
  }

  /** A chain back to a serial of the history is what came after it. */
  lemma ChainIsRest(ends: Ends, history: seq<Commit>, i: nat, cs: seq<Commit>)
    requires i < |history| && Chained(history) && Indexes(ends, history) && EachOnce(history)
    requires IsChain(ends, cs, history[i].serialTo, history[|history| - 1].serialTo)
    ensures cs == history[i + 1..]
  {
    ChainLength(ends, history, i, |cs|);
    forall m | 0 <= m < |cs|
      ensures cs[m] == history[i + 1 + m]
    {
      WalkHistory(ends, history, |cs| - 1 - m);
      assert TakenAt(ends, history[|history| - 1].serialTo, |cs| - 1 - m, cs[m]);
    }
  }

  ghost predicate WasAt(history: seq<Commit>, target: Serial)
  {
    exists i :: 0 <= i < |history| && history[i].serialTo == target
  }

  /** A serial of the history is found. */
  lemma HistoryIsReached(ends: Ends, history: seq<Commit>, target: Serial)
    requires history != [] && Chained(history) && Indexes(ends, history)
    ensures WasAt(history, target) ==> Reaches(ends, target, history[|history| - 1].serialTo)
  {
    if i :| 0 <= i < |history| && history[i].serialTo == target {
      WalkHistory(ends, history, |history| - 1 - i);
    }
  }

  /** However far back it leads, a chain is the end of the history. */
  lemma ChainIsEnd(ends: Ends, history: seq<Commit>, from: Serial, cs: seq<Commit>)
    requires history != [] && Chained(history) && Indexes(ends, history)
    requires IsChain(ends, cs, from, history[|history| - 1].serialTo)
    ensures |cs| <= |history| && cs == history[|history| - |cs|..]
  {
    ChainIsShort(ends, history, from, |cs|);
    forall m | 0 <= m < |cs|
      ensures cs[m] == history[|history| - |cs| + m]
    {
      WalkHistory(ends, history, |cs| - 1 - m);
      assert TakenAt(ends, history[|history| - 1].serialTo, |cs| - 1 - m, cs[m]);
    }
  }

  lemma ChainIsShort(ends: Ends, history: seq<Commit>, from: Serial, n: nat)
    requires history != [] && Indexes(ends, history) && FirstAt(ends, from, history[|history| - 1].serialTo, n)
    ensures n <= |history|
  {
    var to := history[|history| - 1].serialTo;
    VisitedOnce(ends, from, to, n, n);
    forall s | s in ends.Keys
      ensures WasAt(history, s)
    {
      assert ends[s] in history;
    }
    SerialsBound(history, ends.Keys);
    SubsetSize(Visited(ends, to, n), ends.Keys);
  }

  lemma {:induction false} SerialsBound(history: seq<Commit>, serials: set<Serial>)
    requires forall s :: s in serials ==> WasAt(history, s)
    ensures |serials| <= |history|
    decreases |history|
  {
    if history == [] {
      assert serials == {};
    } else {
      var n := |history| - 1;
      var front, last := history[..n], history[n].serialTo;
      forall s | s in serials - {last}
        ensures WasAt(front, s)
      {
        var i :| 0 <= i < |history| && history[i].serialTo == s;
        assert front[i] == history[i];
      }
      SerialsBound(front, serials - {last});
      SubsetSize(serials, serials - {last} + {last});
    }
  }

  /** The serial a chain leads back to is the one the commits before it left. */
  lemma KeptEndsAt(ends: Ends, history: seq<Commit>, from: Serial, cs: seq<Commit>)
    requires history != [] && Chained(history) && Indexes(ends, history) && EachOnce(history)
    requires IsChain(ends, cs, from, history[|history| - 1].serialTo) && from != history[|history| - 1].serialTo
    requires |cs| <= |history| && cs == history[|history| - |cs|..]
    ensures |cs| < |history| ==> history[|history| - |cs| - 1].serialTo == from
    ensures WasAt(history, from) ==> |cs| < |history|
  {
    ChainIsContiguous(ends, cs, from, history[|history| - 1].serialTo);
    if i :| 0 <= i < |history| && history[i].serialTo == from {
      ChainLength(ends, history, i, |cs|);
    }
  }

  /** The queue undoes every commit of the history but the first ones. */
  ghost predicate UndoesAfter(history: seq<Commit>, kept: nat, z: Zone, held: Held, first: RecordId, next: RecordId, ch: Changes)
  {
    kept <= |history| && UndoesTo(z, held, Events(history[kept..]), ch) && Handles(z.id, held, first, next, ch)
  }

  /** Rolling back to a serial the zone has moved on from restores the state its
      history had there, however the listing of that history is ordered and paged. */
  method RollbackIn(z: Zone, held: Held, pages: seq<seq<Commit>>, target: Serial,
                    parses: Key -> bool, mint: RecordId, ghost history: seq<Commit>)
    returns (r: Result<Changes>, next: RecordId, ghost kept: nat)
    requires HistoryOf(history, z, held) && Lists(pages, history)
    ensures target == z.soa.serial ==> r == Ok(NO_CHANGES)
    ensures target != z.soa.serial && !(Comparable(target, z.soa.serial) && Before(target, z.soa.serial)) ==>
              r == Err(Invalid)
    ensures r.Ok? && target != z.soa.serial ==> RestoresTarget(history, target, z, held, r.value)
    ensures r.Ok? && target != z.soa.serial ==> UndoesAfter(history, kept, z, held, mint, next, r.value)
    ensures r.Ok? && target != z.soa.serial && kept > 0 ==> history[kept - 1].serialTo == target
    ensures r.Ok? && target != z.soa.serial && WasAt(history, target) ==> kept > 0
    ensures WasAt(history, target) ==> r != Err(NotFound)
    ensures r.Ok? ==> InStep(r.value)
  {
    next, kept := mint, |history|;
    if target == z.soa.serial {
      return Ok(NO_CHANGES), next, kept;
    }
    if !Comparable(target, z.soa.serial) || !Before(target, z.soa.serial) {
      return Err(Invalid), next, kept;
    }
    EndsOfHistory(pages, history, z, held);
    HistoryIsReached(EndsOf(Flat(pages)), history, target);
    var since := CommitsBetween(pages, target, z.soa.serial);
    if since.Err? {
      return Err(NotFound), next, kept;
    }
    r, next, kept := UndoSince(z, held, since.value, target, parses, mint, EndsOf(Flat(pages)), history);
  }

  method UndoSince(z: Zone, held: Held, since: seq<Commit>, target: Serial, parses: Key -> bool, mint: RecordId,
                   ghost ends: Ends, ghost history: seq<Commit>)
    returns (r: Result<Changes>, next: RecordId, ghost kept: nat)
    requires HistoryOf(history, z, held) && Indexes(ends, history) && IsChain(ends, since, target, z.soa.serial) && target != z.soa.serial
    ensures r.Ok? ==> RestoresTarget(history, target, z, held, r.value) && UndoesAfter(history, kept, z, held, mint, next, r.value)
    ensures r.Ok? ==> InStep(r.value)
    ensures KeptAt(history, target, kept)
    ensures r != Err(NotFound)
  {
    kept := SinceIsEnd(ends, history, z, held, since, target);
    r, next := Undo(z, held, since, parses, mint);
    if r.Ok? { UndoneSince(ends, history, z, held, since, target, kept, mint, next, r.value); }
  }

  /** What is kept of the history ends at the serial, if any is. */
  ghost predicate KeptAt(history: seq<Commit>, target: Serial, kept: nat)
  {
    kept <= |history| && (kept > 0 ==> history[kept - 1].serialTo == target) && (WasAt(history, target) ==> kept > 0)
  }

  lemma SinceIsEnd(ends: Ends, history: seq<Commit>, z: Zone, held: Held, since: seq<Commit>, target: Serial) returns (kept: nat)
    requires HistoryOf(history, z, held) && Indexes(ends, history) && IsChain(ends, since, target, z.soa.serial) && target != z.soa.serial
    ensures KeptAt(history, target, kept) && since == history[kept..]
  {
    ChainIsEnd(ends, history, target, since);
    KeptEndsAt(ends, history, target, since);
    kept := |history| - |since|;
  }

  lemma UndoneSince(ends: Ends, history: seq<Commit>, z: Zone, held: Held, since: seq<Commit>, target: Serial, kept: nat,
                    mint: RecordId, next: RecordId, ch: Changes)
    requires HistoryOf(history, z, held) && Indexes(ends, history) && IsChain(ends, since, target, z.soa.serial)
    requires kept <= |history| && since == history[kept..]
    requires UndoesTo(z, held, Events(since), ch) && Handles(z.id, held, mint, next, ch)
    ensures RestoresTarget(history, target, z, held, ch) && UndoesAfter(history, kept, z, held, mint, next, ch)
  {
    LeadsBack(ends, history, z, held, since, target, ch);
  }

  lemma LeadsBack(ends: Ends, history: seq<Commit>, z: Zone, held: Held, since: seq<Commit>, target: Serial, ch: Changes)
    requires HistoryOf(history, z, held) && Indexes(ends, history)
    requires IsChain(ends, since, target, z.soa.serial) && UndoesTo(z, held, Events(since), ch)
    ensures RestoresTarget(history, target, z, held, ch)
  {
    forall i | 0 <= i < |history| && history[i].serialTo == target
      ensures RestoresTo(history, i, z, held, ch)
    {
      ChainIsRest(ends, history, i, since);
      SplitHistory(history, i);
    }
  }

  /** Carrying the queue out takes the zone to the state it had at the serial. */
  ghost predicate RestoresTarget(history: seq<Commit>, target: Serial, z: Zone, held: Held, ch: Changes)
  {
    forall i :: 0 <= i < |history| && history[i].serialTo == target ==> RestoresTo(history, i, z, held, ch)
  }

  ghost predicate RestoresTo(history: seq<Commit>, i: nat, z: Zone, held: Held, ch: Changes)
    requires i < |history|
  {
    var was := StateAt(history, i);
    && was.Some? && Fits(Content(held), ch) && Restores(was.value, held, ch)
    && (was.value.soa.Some? ==> SoaAfter(z, ch).(serial := 0) == was.value.soa.value)
  }
}
