/** The list of sessions ended before their time, pruned and replaced as it is
    written, against everything that was ever ended. */
module EndedSessions {

  type Time = nat

  /** Names are compared without case, so a name here is one already folded. */
  datatype Session = Session(id: string, provider: string, name: string, openedAt: Time)

  const LIFETIME := 12 * 3600

  function Expires(s: Session): Time
  {
    s.openedAt + LIFETIME
  }

  datatype Ended = OneSession(id: string, until: Time) | Person(provider: string, name: string, until: Time)

  predicate Ends(e: Ended, s: Session)
  {
    match e
    case OneSession(id, _) => id == s.id
    case Person(provider, name, until) => provider == s.provider && name == s.name && Expires(s) <= until
  }

  /** One written second takes the place of the first. */
  predicate Replaces(e: Ended, o: Ended)
  {
    match e
    case OneSession(id, _) => o.OneSession? && o.id == id
    case Person(provider, name, _) => o.Person? && o.provider == provider && o.name == name
  }

  predicate Refuses(list: seq<Ended>, s: Session)
  {
    exists i :: 0 <= i < |list| && Ends(list[i], s)
  }

  predicate Dropped(e: Ended, next: Ended, now: Time)
  {
    Replaces(next, e) || e.until <= now
  }

  function Kept(list: seq<Ended>, next: Ended, now: Time): seq<Ended>
  {
    if list == [] then []
    else (if Dropped(list[0], next, now) then [] else [list[0]]) + Kept(list[1..], next, now)
  }

  /** The list after one more ending. */
  function Listed(list: seq<Ended>, next: Ended, now: Time): seq<Ended>
  {
    if next.until <= now then list else Kept(list, next, now) + [next]
  }

  method EndSessions(list: seq<Ended>, next: Ended, now: Time) returns (out: seq<Ended>)
    ensures out == Listed(list, next, now)
  {
    if next.until <= now { return list; }
    out := [];
    for i := 0 to |list|
      invariant out == Kept(list[..i], next, now)
    {
      KeptMore(list[..i], list[i], next, now);
      assert list[..i + 1] == list[..i] + [list[i]];
      if !Dropped(list[i], next, now) {
        out := out + [list[i]];
      }
    }
    assert list[..|list|] == list;
    out := out + [next];
  }

  lemma {:induction false} KeptMore(list: seq<Ended>, e: Ended, next: Ended, now: Time)
    ensures Kept(list + [e], next, now) == Kept(list, next, now) + if Dropped(e, next, now) then [] else [e]
  {
    if list != [] {
      KeptMore(list[1..], e, next, now);
      assert (list + [e])[1..] == list[1..] + [e];
    }
  }

  lemma {:induction false} KeptHas(list: seq<Ended>, next: Ended, now: Time, e: Ended)
    ensures e in Kept(list, next, now) <==> e in list && !Dropped(e, next, now)
  {
    if list != [] {
      KeptHas(list[1..], next, now, e);
      assert list == [list[0]] + list[1..];
    }
  }

  lemma RefusesIs(list: seq<Ended>, s: Session)
    ensures Refuses(list, s) <==> exists e :: e in list && Ends(e, s)
  {
    if e :| e in list && Ends(e, s) {
      var i :| 0 <= i < |list| && list[i] == e;
    }
  }

  // -------------------------------------------------------------------- all runs

  /** One ending: what, and when. */
  datatype Ending = Ending(entry: Ended, at: Time)

  /** Endings in the order of one clock, a person's covering one lifetime on. */
  ghost predicate Orderly(endings: seq<Ending>, now: Time)
  {
    && (forall i, j :: 0 <= i < j < |endings| ==> endings[i].at <= endings[j].at)
    && (forall i :: 0 <= i < |endings| ==> endings[i].at <= now)
    && (forall i :: 0 <= i < |endings| && endings[i].entry.Person? ==> endings[i].entry.until == endings[i].at + LIFETIME)
  }

  /** An entry for one session carries that session's own expiry. */
  ghost predicate OwnExpiry(endings: seq<Ending>, s: Session)
  {
    forall i :: 0 <= i < |endings| && endings[i].entry.OneSession? && endings[i].entry.id == s.id ==>
      endings[i].entry.until == Expires(s)
  }

  function Pruned(endings: seq<Ending>): seq<Ended>
  {
    if endings == [] then []
    else
      var last := endings[|endings| - 1];
      Listed(Pruned(endings[..|endings| - 1]), last.entry, last.at)
  }

  ghost predicate EverEnded(endings: seq<Ending>, s: Session)
  {
    exists i :: 0 <= i < |endings| && Ends(endings[i].entry, s)
  }

  /** What the pruned list holds was ended at some time. */
  lemma {:induction false} PrunedIsFromHistory(endings: seq<Ending>, e: Ended)
    requires e in Pruned(endings)
    ensures exists i :: 0 <= i < |endings| && endings[i].entry == e
  {
    var front, last := endings[..|endings| - 1], endings[|endings| - 1];
    if last.entry.until <= last.at {
      PrunedIsFromHistory(front, e);
    } else if e != last.entry {
      KeptHas(Pruned(front), last.entry, last.at, e);
      PrunedIsFromHistory(front, e);
    }
    if i :| 0 <= i < |front| && front[i].entry == e {
      assert endings[i].entry == e;
    }
  }

  lemma FrontOrderly(endings: seq<Ending>, now: Time, s: Session)
    requires endings != [] && Orderly(endings, now) && OwnExpiry(endings, s)
    ensures Orderly(endings[..|endings| - 1], endings[|endings| - 1].at) && OwnExpiry(endings[..|endings| - 1], s)
  {
  }

  /** An entry that is dropped refuses nothing that the new one does not, unless it
      has run out. */
  lemma DroppedIsCovered(endings: seq<Ending>, now: Time, e: Ended, s: Session, i: nat)
    requires endings != [] && Orderly(endings, now) && OwnExpiry(endings, s) && i < |endings| && endings[i].entry == e
    requires Ends(e, s) && endings[|endings| - 1].at < Expires(s)
    ensures Dropped(e, endings[|endings| - 1].entry, endings[|endings| - 1].at) ==> Ends(endings[|endings| - 1].entry, s)
  {
  }

  /** For a session that has not run out, the pruned list says what the whole
      history of endings says. */
  lemma {:induction false} PrunedSaysTheSame(endings: seq<Ending>, now: Time, s: Session)
    requires Orderly(endings, now) && OwnExpiry(endings, s) && now < Expires(s)
    ensures Refuses(Pruned(endings), s) <==> EverEnded(endings, s)
    decreases |endings|
  {
    RefusesIs(Pruned(endings), s);
    if e :| e in Pruned(endings) && Ends(e, s) {
      PrunedIsFromHistory(endings, e);
    }
    if EverEnded(endings, s) {
      var n := |endings| - 1;
      var front, last := endings[..n], endings[n];
      FrontOrderly(endings, now, s);
      PrunedSaysTheSame(front, last.at, s);
      StillRefused(endings, now, s);
    }
  }

  lemma StillRefused(endings: seq<Ending>, now: Time, s: Session)
    requires endings != [] && Orderly(endings, now) && OwnExpiry(endings, s) && now < Expires(s)
    requires EverEnded(endings, s)
    requires Refuses(Pruned(endings[..|endings| - 1]), s) <==> EverEnded(endings[..|endings| - 1], s)
    ensures Refuses(Pruned(endings), s)
  {
    var n := |endings| - 1;
    var front, last := endings[..n], endings[n];
    RefusesIs(Pruned(endings), s);
    if Ends(last.entry, s) {
      assert last.entry.until > last.at;
      assert last.entry in Pruned(endings);
    } else {
      var i :| 0 <= i < |endings| && Ends(endings[i].entry, s);
      assert front[i].entry == endings[i].entry;
      RefusesIs(Pruned(front), s);
      var e :| e in Pruned(front) && Ends(e, s);
      PrunedIsFromHistory(front, e);
      var k :| 0 <= k < |front| && front[k].entry == e;
      KeptHas(Pruned(front), last.entry, last.at, e);
      DroppedIsCovered(endings, now, e, s, k);
    }
  }

  /** Ending a person refuses exactly those of their sessions opened by then. */
  lemma PersonEndsWhatWasOpen(provider: string, name: string, at: Time, s: Session)
    ensures Ends(Person(provider, name, at + LIFETIME), s) <==> s.provider == provider && s.name == name && s.openedAt <= at
  {
  }
}
