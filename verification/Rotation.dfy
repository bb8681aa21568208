/** Two keys, rotated when due: what was sealed under one opens until it expires. */
module Rotation {
  import opened Dns

  type KeyId = nat
  type Time = nat

  /** The key things are sealed under now, the one before it, and when the current
      one was minted. */
  datatype Keys = Keys(current: Option<KeyId>, previous: Option<KeyId>, rotatedAt: Time)

  const NO_KEYS := Keys(None, None, 0)

  predicate Due(k: Keys, period: Time, now: Time)
  {
    k.current.None? || now >= k.rotatedAt + period
  }

  function Rotate(k: Keys, mint: KeyId, now: Time): Keys
  {
    Keys(Some(mint), k.current, now)
  }

  /** A session or a cookie: the key it was made under, and when it runs out. */
  datatype Sealed = Sealed(key: KeyId, expires: Time)

  predicate Opens(k: Keys, s: Sealed)
  {
    k.current == Some(s.key) || k.previous == Some(s.key)
  }

  /** What the current key sealed opens either way; rotating gives up only what the one
      before it sealed. */
  method RotateKeys(stored: Keys, period: Time, mint: KeyId, now: Time) returns (k: Keys, changed: bool)
    ensures changed <==> Due(stored, period, now)
    ensures k == if changed then Rotate(stored, mint, now) else stored
    ensures forall x: Sealed :: Opens(k, x) <==>
              stored.current == Some(x.key) || if changed then x.key == mint else stored.previous == Some(x.key)
  {
    if !Due(stored, period, now) { return stored, false; }
    return Rotate(stored, mint, now), true;
  }

  datatype State = State(keys: Keys, now: Time, mint: KeyId, sealed: set<Sealed>)

  datatype Event = Pass(to: Time) | Rotates | Seals

  /** Rotations happen only when due; the clock does not go back. */
  ghost predicate Steps(period: Time, lifetime: Time, s: State, ev: Event, next: State)
  {
    match ev
    case Pass(to) => s.now <= to && next == s.(now := to)
    case Rotates => Due(s.keys, period, s.now) && next == s.(keys := Rotate(s.keys, s.mint, s.now), mint := s.mint + 1)
    case Seals =>
      s.keys.current.Some? && next == s.(sealed := s.sealed + {Sealed(s.keys.current.value, s.now + lifetime)})
  }

  const START := State(NO_KEYS, 0, 0, {})

  ghost predicate Run(period: Time, lifetime: Time, states: seq<State>, events: seq<Event>)
  {
    && |states| == |events| + 1 && states[0] == START
    && forall i, j :: 0 <= i < |events| && j == i + 1 ==> Steps(period, lifetime, states[i], events[i], states[j])
  }

  /** What has not run out opens. */
  ghost predicate AllOpen(s: State)
  {
    forall x :: x in s.sealed && s.now < x.expires ==> Opens(s.keys, x)
  }

  /** What was sealed under the current key runs out within a lifetime of now, and
      under the one before within a lifetime of the rotation. */
  ghost predicate Dated(lifetime: Time, s: State)
  {
    && s.keys.rotatedAt <= s.now
    && (s.keys.current.Some? ==> s.keys.current.value < s.mint)
    && (s.keys.previous.Some? ==> s.keys.current.Some? && s.keys.previous.value < s.mint && s.keys.previous != s.keys.current)
    && (forall x :: x in s.sealed ==> x.key < s.mint)
    && forall x :: x in s.sealed ==>
         if s.keys.current == Some(x.key) then x.expires <= s.now + lifetime
         else if s.keys.previous == Some(x.key) then x.expires <= s.keys.rotatedAt + lifetime
         else x.expires <= s.now
  }

  lemma StepKeepsDated(period: Time, lifetime: Time, s: State, ev: Event, next: State)
    requires lifetime <= period && Dated(lifetime, s) && Steps(period, lifetime, s, ev, next)
    ensures Dated(lifetime, next)
  {
  }

  lemma {:induction false} RunIsDated(period: Time, lifetime: Time, states: seq<State>, events: seq<Event>, i: nat)
    requires lifetime <= period && Run(period, lifetime, states, events) && i < |states|
    ensures Dated(lifetime, states[i])
  {
    if i > 0 {
      RunIsDated(period, lifetime, states, events, i - 1);
      StepKeepsDated(period, lifetime, states[i - 1], events[i - 1], states[i]);
    }
  }

  /** Where a thing lives no longer than a key stays current, it opens until it runs
      out, in every run. */
  lemma EverythingOpens(period: Time, lifetime: Time, states: seq<State>, events: seq<Event>, i: nat)
    requires lifetime <= period && Run(period, lifetime, states, events) && i < |states|
    ensures AllOpen(states[i])
  {
    RunIsDated(period, lifetime, states, events, i);
  }

  // ------------------------------------------------------------- and only then

  function Late(period: Time, lifetime: Time, k: nat): State
    requires k <= 6
  {
    var sealed := {Sealed(0, period + lifetime)};
    if k == 0 then START
    else if k == 1 then State(Keys(Some(0), None, 0), 0, 1, {})
    else if k == 2 then State(Keys(Some(0), None, 0), period, 1, {})
    else if k == 3 then State(Keys(Some(0), None, 0), period, 1, sealed)
    else if k == 4 then State(Keys(Some(1), Some(0), period), period, 2, sealed)
    else if k == 5 then State(Keys(Some(1), Some(0), period), 2 * period, 2, sealed)
    else State(Keys(Some(2), Some(1), 2 * period), 2 * period, 3, sealed)
  }

  function LateEvent(period: Time, k: nat): Event
    requires k < 6
  {
    if k == 0 || k == 3 || k == 5 then Rotates
    else if k == 1 then Pass(period)
    else if k == 2 then Seals
    else Pass(2 * period)
  }

  /** Where it may live longer, sealing just before a rotation is enough to lose it. */
  lemma LongerLivedIsLost(period: Time, lifetime: Time)
    requires period < lifetime
    ensures forall k: nat :: k < 6 ==> Steps(period, lifetime, Late(period, lifetime, k), LateEvent(period, k), Late(period, lifetime, k + 1))
    ensures Late(period, lifetime, 0) == START && !AllOpen(Late(period, lifetime, 6))
  {
    var s := Late(period, lifetime, 6);
    assert Sealed(0, period + lifetime) in s.sealed;
  }

  /** Nothing is ever lost before it runs out. */
  ghost predicate NeverLost(period: Time, lifetime: Time)
  {
    forall states, events :: Run(period, lifetime, states, events) ==> AllOpen(states[|states| - 1])
  }

  /** Exactly where a thing lives no longer than a key stays current. */
  lemma NeverLostIff(period: Time, lifetime: Time)
    ensures NeverLost(period, lifetime) <==> lifetime <= period
  {
    if lifetime <= period {
      forall states, events | Run(period, lifetime, states, events)
        ensures AllOpen(states[|states| - 1])
      {
        EverythingOpens(period, lifetime, states, events, |states| - 1);
      }
    } else {
      LongerLivedIsLost(period, lifetime);
      var states := seq(7, k requires 0 <= k < 7 => Late(period, lifetime, k));
      var events := seq(6, k requires 0 <= k < 6 => LateEvent(period, k));
      assert Run(period, lifetime, states, events);
      assert !AllOpen(states[6]);
    }
  }

  // --------------------------------------------------------- the two it is used for

  const HOUR := 3600
  const SESSION_LIFETIME := 12 * HOUR
  const SESSION_ROTATION := SESSION_LIFETIME
  const COOKIE_LIFETIME := HOUR
  const COOKIE_ROTATION := HOUR

  /** A session for its lifetime, and a server cookie for the hour section 4.3 of
      RFC 9018 honours it. */
  lemma SessionsAndCookiesOpen(states: seq<State>, events: seq<Event>, i: nat)
    requires i < |states|
    ensures Run(SESSION_ROTATION, SESSION_LIFETIME, states, events) ==> AllOpen(states[i])
    ensures Run(COOKIE_ROTATION, COOKIE_LIFETIME, states, events) ==> AllOpen(states[i])
  {
    if Run(SESSION_ROTATION, SESSION_LIFETIME, states, events) {
      EverythingOpens(SESSION_ROTATION, SESSION_LIFETIME, states, events, i);
    }
    if Run(COOKIE_ROTATION, COOKIE_LIFETIME, states, events) {
      EverythingOpens(COOKIE_ROTATION, COOKIE_LIFETIME, states, events, i);
    }
  }
}
