/** The limit on failed authentication: one timestamp to an address, and what it
    bounds. */
module AuthLimiter {
  import opened Dns

  type Time = int

  const BURST := 10
  const REFILL := 6
  const FORGET := 600

  datatype Bucket = Bucket(full: Time, seen: Time)

  // ------------------------------------------------------------------- one address

  /** When the bucket would be full again; an address never heard of is full now. */
  function Level(b: Option<Bucket>, now: Time): Time
  {
    if b.Some? && b.value.full > now then b.value.full else now
  }

  predicate Allows(b: Option<Bucket>, now: Time)
  {
    b.None? || b.value.full <= now + BURST * REFILL
  }

  function Heard(b: Option<Bucket>, now: Time): Option<Bucket>
  {
    if b.None? then None else Some(b.value.(seen := now))
  }

  function Spent(b: Option<Bucket>, now: Time): Bucket
  {
    Bucket(Level(b, now) + REFILL, now)
  }

  predicate Stale(b: Bucket, now: Time)
  {
    now - b.seen > FORGET
  }

  function Forgotten(b: Option<Bucket>, now: Time): Option<Bucket>
  {
    if b.Some? && Stale(b.value, now) then None else b
  }

  class Limiter {
    var buckets: map<string, Bucket>

    constructor ()
      ensures buckets == map[]
    {
      buckets := map[];
    }

    function At(addr: string): Option<Bucket>
      reads this
    {
      if addr in buckets then Some(buckets[addr]) else None
    }

    /** Whether an address may try again. */
    method Allow(addr: string, now: Time) returns (ok: bool)
      modifies this
      ensures ok == Allows(old(At(addr)), now)
      ensures At(addr) == Heard(old(At(addr)), now)
      ensures forall a :: a != addr ==> At(a) == old(At(a))
    {
      if addr !in buckets { return true; }
      var b := buckets[addr];
      buckets := buckets[addr := b.(seen := now)];
      return b.full <= now + BURST * REFILL;
    }

    /** Drops addresses not heard from in a while. */
    method Forget(now: Time)
      modifies this
      ensures forall a :: At(a) == Forgotten(old(At(a)), now)
    {
      var addrs := buckets.Keys;
      while addrs != {}
        invariant addrs <= old(buckets).Keys
        invariant forall a :: a in addrs ==> At(a) == old(At(a))
        invariant forall a :: a !in addrs ==> At(a) == Forgotten(old(At(a)), now)
        decreases addrs
      {
        var a :| a in addrs;
        if now - buckets[a].seen > FORGET { buckets := buckets - {a}; }
        addrs := addrs - {a};
      }
    }

    /** Records a rejection. */
    method Spend(addr: string, now: Time)
      modifies this
      ensures At(addr) == Some(Spent(Forgotten(old(At(addr)), now), now))
      ensures forall a :: a != addr ==> At(a) == Forgotten(old(At(a)), now)
    {
      Forget(now);
      var b := if addr in buckets then buckets[addr] else Bucket(now, now);
      if b.full < now { b := b.(full := now); }
      buckets := buckets[addr := Bucket(b.full + REFILL, now)];
    }
  }

  // --------------------------------------------------------------------- its life

  /** What happens to one address: an attempt allowed or turned away, one of those
      allowed found good or bad, or somebody else's rejection sweeping the table. */
  datatype Event =
    | Allowed(at: Time)
    | Refused(at: Time)
    | Accepted(at: Time)
    | Rejected(at: Time)
    | Swept(at: Time)

  /** The bucket, the clock, and how many attempts allowed are still undecided. */
  datatype Life = Life(bucket: Option<Bucket>, now: Time, pending: nat)

  function Fewer(n: nat): nat
  {
    if n > 0 then n - 1 else 0
  }

  function Next(s: Life, e: Event): Life
  {
    match e
    case Allowed(at) => Life(Heard(s.bucket, at), at, s.pending + 1)
    case Refused(at) => Life(Heard(s.bucket, at), at, s.pending)
    case Accepted(at) => Life(s.bucket, at, Fewer(s.pending))
    case Rejected(at) => Life(Some(Spent(Forgotten(s.bucket, at), at)), at, Fewer(s.pending))
    case Swept(at) => Life(Forgotten(s.bucket, at), at, s.pending)
  }

  /** An attempt goes ahead exactly when allowed, its outcome follows it, at most so many
      are undecided at once, and the clock does not go back. */
  ghost predicate May(s: Life, e: Event, flights: nat)
  {
    && s.now <= e.at
    && (e.Allowed? ==> Allows(s.bucket, e.at) && s.pending < flights)
    && (e.Refused? ==> !Allows(s.bucket, e.at))
    && (e.Accepted? || e.Rejected? ==> s.pending > 0)
  }

  ghost predicate Step(s: Life, e: Event, next: Life, flights: nat)
  {
    May(s, e, flights) && next == Next(s, e)
  }

  ghost predicate Run(states: seq<Life>, events: seq<Event>, flights: nat)
  {
    && |states| == |events| + 1 && states[0].bucket == None && states[0].pending == 0
    && forall i :: 0 <= i < |events| ==> Step(states[i], events[i], states[i + 1], flights)
  }

  /** How far ahead of the clock a bucket gets, counting what is still undecided,
      and how far ahead of when it was last heard from. */
  ghost predicate Within(s: Life, flights: nat)
  {
    && s.pending <= flights
    && Level(s.bucket, s.now) + s.pending * REFILL <= s.now + (BURST + flights) * REFILL
    && (s.bucket.Some? ==> s.bucket.value.full <= s.bucket.value.seen + (BURST + flights) * REFILL && s.bucket.value.seen <= s.now)
  }

  lemma StepKeepsWithin(s: Life, e: Event, flights: nat)
    requires Within(s, flights) && May(s, e, flights)
    ensures Within(Next(s, e), flights)
  {
  }

  lemma {:induction false} RunIsWithin(states: seq<Life>, events: seq<Event>, flights: nat, i: nat)
    requires Run(states, events, flights) && i < |states|
    ensures Within(states[i], flights)
  {
    if i > 0 {
      RunIsWithin(states, events, flights, i - 1);
      assert Step(states[i - 1], events[i - 1], states[i], flights);
      StepKeepsWithin(states[i - 1], events[i - 1], flights);
    }
  }

  // ----------------------------------------------------------- what it may forget

  /** As long as ten minutes outlast every level a bucket can reach, what is
      forgotten was full. */
  lemma ForgetsOnlyFull(s: Life, flights: nat, now: Time)
    requires Within(s, flights) && s.now <= now && (BURST + flights) * REFILL <= FORGET
    ensures Level(Forgotten(s.bucket, now), now) == Level(s.bucket, now)
  {
  }

  /** Every verdict follows from the level alone. */
  lemma VerdictIsLevel(b: Option<Bucket>, now: Time)
    ensures Allows(b, now) <==> Level(b, now) <= now + BURST * REFILL
  {
  }

  /** The same life without ever forgetting. */
  function Remembered(b: Option<Bucket>, events: seq<Event>): Option<Bucket>
    decreases |events|
  {
    if events == [] then b
    else
      var e := events[|events| - 1];
      var was := Remembered(b, events[..|events| - 1]);
      match e
      case Allowed(at) => Heard(was, at)
      case Refused(at) => Heard(was, at)
      case Rejected(at) => Some(Spent(was, at))
      case _ => was
  }

  lemma LaterLevel(a: Option<Bucket>, b: Option<Bucket>, now: Time, later: Time)
    requires Level(a, now) == Level(b, now) && now <= later
    ensures Level(a, later) == Level(b, later)
  {
  }

  /** With no more than ninety attempts undecided at once, an address is treated at
      every moment as if nothing had ever been forgotten. */
  lemma {:induction false} ForgettingChangesNoVerdict(states: seq<Life>, events: seq<Event>, flights: nat, i: nat, now: Time)
    requires Run(states, events, flights) && flights <= 90 && i < |states| && states[i].now <= now
    ensures Level(states[i].bucket, now) == Level(Remembered(None, events[..i]), now)
    ensures Allows(states[i].bucket, now) <==> Allows(Remembered(None, events[..i]), now)
    decreases i
  {
    if i == 0 {
      assert events[..0] == [];
    } else {
      var s, e := states[i - 1], events[i - 1];
      assert Step(s, e, states[i], flights);
      assert events[..i][..i - 1] == events[..i - 1] && events[..i][i - 1] == e;
      RunIsWithin(states, events, flights, i - 1);
      ForgetsOnlyFull(s, flights, e.at);
      ForgettingChangesNoVerdict(states, events, flights, i - 1, e.at);
      LaterLevel(states[i].bucket, Remembered(None, events[..i]), e.at, now);
    }
    VerdictIsLevel(states[i].bucket, now);
    VerdictIsLevel(Remembered(None, events[..i]), now);
  }

  // ------------------------------------------------------------------ the bound

  function Rejections(events: seq<Event>): nat
  {
    if events == [] then 0 else Rejections(events[..|events| - 1]) + if events[|events| - 1].Rejected? then 1 else 0
  }

  /** Every rejection puts the level one refill further on. */
  lemma {:induction false} LevelRises(states: seq<Life>, events: seq<Event>, flights: nat, first: nat, i: nat, start: Time)
    requires Run(states, events, flights) && flights <= 90 && first <= i < |states| && start <= states[first].now
    ensures start + Rejections(events[first..i]) * REFILL <= Level(states[i].bucket, states[i].now)
    decreases i
  {
    if first < i {
      LevelRises(states, events, flights, first, i - 1, start);
      var s, e := states[i - 1], events[i - 1];
      assert Step(s, e, states[i], flights);
      RunIsWithin(states, events, flights, i - 1);
      ForgetsOnlyFull(s, flights, e.at);
      assert events[first..i][..i - 1 - first] == events[first..i - 1] && events[first..i][i - 1 - first] == e;
    } else {
      assert events[first..i] == [];
    }
  }

  /** In any window, one address collects no more rejections than the burst, the
      attempts that may be undecided at once, and what the window refills. */
  lemma RejectionsAreBounded(states: seq<Life>, events: seq<Event>, flights: nat, first: nat, last: nat, window: Time)
    requires Run(states, events, flights) && flights <= 90 && first <= last < |states|
    requires states[last].now - states[first].now <= window
    ensures Rejections(events[first..last]) * REFILL <= window + (BURST + flights) * REFILL
    ensures Rejections(events[first..last]) <= BURST + flights + window / REFILL
  {
    LevelRises(states, events, flights, first, last, states[first].now);
    RunIsWithin(states, events, flights, last);
    BoundInRejections(Rejections(events[first..last]), window, flights);
  }

  lemma BoundInRejections(n: nat, window: Time, flights: nat)
    requires n * REFILL <= window + (BURST + flights) * REFILL
    ensures n <= BURST + flights + window / REFILL
  {
  }

  // ------------------------------------------------------- more attempts at once

  /** An address is always treated as if nothing had ever been forgotten. */
  ghost predicate ForgetsNothing(flights: nat)
  {
    forall states, events :: Run(states, events, flights) ==> AsRemembered(states[|events|], events)
  }

  ghost predicate AsRemembered(s: Life, events: seq<Event>)
  {
    Level(s.bucket, s.now) == Level(Remembered(None, events), s.now)
  }

  /** That is so exactly while no more than ninety attempts may be undecided at once. */
  lemma ForgetsNothingIff(flights: nat)
    ensures ForgetsNothing(flights) <==> flights <= 90
  {
    if flights <= 90 {
      forall states: seq<Life>, events | Run(states, events, flights)
        ensures AsRemembered(states[|events|], events)
      {
        var s := states[|events|];
        ForgettingChangesNoVerdict(states, events, flights, |events|, s.now);
        assert events[..|events|] == events;
      }
    } else {
      var states := seq(204, k requires 0 <= k < 204 => Crowd(91, k));
      var events := seq(203, k requires 0 <= k < 203 => CrowdEvent(91, k));
      CrowdRuns(states, events, 91, flights);
      CrowdRemembered(events, 91, 202);
      assert events[..202] == events[..|events| - 1];
      assert !AsRemembered(states[203], events);
    }
  }

  /** Ten rejections in turn, then n attempts undecided together and all rejected, then
      a sweep once ten minutes have passed. */
  function CrowdEvent(n: nat, k: nat): Event
  {
    if k < 20 then (if k % 2 == 0 then Allowed(0) else Rejected(0))
    else if k < 20 + n then Allowed(0)
    else if k < 20 + 2 * n then Rejected(0)
    else Swept(FORGET + 1)
  }

  function CrowdSpent(n: nat, k: nat): nat
  {
    if k <= 20 then k / 2 else if k <= 20 + n then 10 else k - 10 - n
  }

  function CrowdBucket(n: nat, k: nat): Option<Bucket>
  {
    if CrowdSpent(n, k) == 0 then None else Some(Bucket(CrowdSpent(n, k) * REFILL, 0))
  }

  function Crowd(n: nat, k: nat): Life
    requires k <= 21 + 2 * n
  {
    if k == 21 + 2 * n then Life(None, FORGET + 1, 0)
    else Life(CrowdBucket(n, k), 0, if k <= 20 then k % 2 else if k <= 20 + n then k - 20 else 20 + 2 * n - k)
  }

  lemma CrowdRuns(states: seq<Life>, events: seq<Event>, n: nat, flights: nat)
    requires 1 <= n <= flights && |events| <= 21 + 2 * n && |states| == |events| + 1
    requires forall k :: 0 <= k < |states| ==> states[k] == Crowd(n, k)
    requires forall k :: 0 <= k < |events| ==> events[k] == CrowdEvent(n, k)
    ensures Run(states, events, flights)
  {
    forall k | 0 <= k < |events|
      ensures Step(states[k], events[k], states[k + 1], flights)
    {
      CrowdSteps(n, k, flights);
    }
  }

  lemma CrowdSteps(n: nat, k: nat, flights: nat)
    requires 1 <= n <= flights && k <= 20 + 2 * n
    ensures Step(Crowd(n, k), CrowdEvent(n, k), Crowd(n, k + 1), flights)
  {
  }

  lemma {:induction false} CrowdRemembered(events: seq<Event>, n: nat, k: nat)
    requires k <= |events| && k <= 20 + 2 * n && forall i :: 0 <= i < |events| ==> events[i] == CrowdEvent(n, i)
    ensures Remembered(None, events[..k]) == CrowdBucket(n, k)
    ensures Rejections(events[..k]) == CrowdSpent(n, k)
  {
    if k > 0 {
      CrowdRemembered(events, n, k - 1);
      assert events[..k][..k - 1] == events[..k - 1] && events[..k][k - 1] == CrowdEvent(n, k - 1);
    }
  }

  /** No more rejections in any window of any run than so many and what the window
      refills. */
  ghost predicate Bounds(most: nat, flights: nat)
  {
    forall states: seq<Life>, events, first: nat, last: nat :: Stretch(states, events, flights, first, last) ==>
      Rejections(events[first..last]) <= most + (states[last].now - states[first].now) / REFILL
  }

  ghost predicate Stretch(states: seq<Life>, events: seq<Event>, flights: nat, first: nat, last: nat)
  {
    Run(states, events, flights) && first <= last < |states|
  }

  /** The burst and every attempt in flight can all be rejected at one moment. */
  lemma AllAtOnce(flights: nat, most: nat)
    requires flights >= 1 && Bounds(most, flights)
    ensures BURST + flights <= most
  {
    var all := 20 + 2 * flights;
    var states := seq(all + 1, k requires 0 <= k < all + 1 => Crowd(flights, k));
    var events := seq(all, k requires 0 <= k < all => CrowdEvent(flights, k));
    CrowdRuns(states, events, flights, flights);
    CrowdRemembered(events, flights, all);
    assert events[..all] == events[0..all];
    assert Stretch(states, events, flights, 0, all);
  }

  /** So the bound is the least one. */
  lemma BoundsIff(most: nat, flights: nat)
    requires 1 <= flights <= 90
    ensures Bounds(most, flights) <==> BURST + flights <= most
  {
    if BURST + flights <= most { BoundHolds(most, flights); }
    if Bounds(most, flights) { AllAtOnce(flights, most); }
  }

  lemma BoundHolds(most: nat, flights: nat)
    requires flights <= 90 && BURST + flights <= most
    ensures Bounds(most, flights)
  {
    forall states: seq<Life>, events, first: nat, last: nat | Stretch(states, events, flights, first, last)
      ensures Rejections(events[first..last]) <= most + (states[last].now - states[first].now) / REFILL
    {
      RejectionsAreBounded(states, events, flights, first, last, states[last].now - states[first].now);
    }
  }

  /** One more than the burst, what attempts made in turn can collect, bounds every run
      if and only if no two attempts are undecided at once. */
  lemma InTurnIff(flights: nat)
    ensures Bounds(BURST + 1, flights) <==> flights <= 1
  {
    if flights <= 1 { BoundHolds(BURST + 1, flights); }
    if Bounds(BURST + 1, flights) && flights >= 1 { AllAtOnce(flights, BURST + 1); }
  }
}
