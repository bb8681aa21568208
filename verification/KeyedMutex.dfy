/** One lock per key, forgotten once nobody uses it: mutual exclusion in every
    interleaving of its four atomic steps. */
module KeyedMutex {
  import opened Dns

  type LockKey = string
  type LockRef = nat
  type Goroutine = nat

  datatype KeyedLock = KeyedLock(owner: Option<Goroutine>, refcount: int)

  /** Where a goroutine is: about to take the lock object it looked up, holding it,
      or having let go of it with its reference still counted. */
  datatype At = Waiting(key: LockKey, lock: LockRef) | Holding(key: LockKey, lock: LockRef) | Leaving(key: LockKey, lock: LockRef)

  datatype Mutex = Mutex(locks: map<LockKey, LockRef>, heap: map<LockRef, KeyedLock>, at: map<Goroutine, At>)

  datatype Step = Enter(g: Goroutine, key: LockKey, mint: LockRef) | Acquire(g: Goroutine) | Release(g: Goroutine) | Leave(g: Goroutine)

  // ------------------------------------------------------------------ the steps

  /** Under the outer lock: find the key's lock or make one, and count in. */
  function Entered(s: Mutex, g: Goroutine, key: LockKey, mint: LockRef): Mutex
    requires key in s.locks ==> s.locks[key] in s.heap
  {
    var l := if key in s.locks then s.locks[key] else mint;
    var was := if key in s.locks then s.heap[l] else KeyedLock(None, 0);
    Mutex(s.locks[key := l], s.heap[l := was.(refcount := was.refcount + 1)], s.at[g := Waiting(key, l)])
  }

  /** Under the outer lock again: count out, and forget the key at zero. */
  function Left(s: Mutex, g: Goroutine): Mutex
    requires g in s.at && s.at[g].lock in s.heap
  {
    var key, l := s.at[g].key, s.at[g].lock;
    var now := s.heap[l].(refcount := s.heap[l].refcount - 1);
    Mutex(if now.refcount == 0 then s.locks - {key} else s.locks, s.heap[l := now], s.at - {g})
  }

  ghost predicate Steps(s: Mutex, st: Step, next: Mutex)
  {
    match st
    case Enter(g, key, mint) =>
      && g !in s.at && mint !in s.heap && (key in s.locks ==> s.locks[key] in s.heap)
      && next == Entered(s, g, key, mint)
    case Acquire(g) =>
      && g in s.at && s.at[g].Waiting? && s.at[g].lock in s.heap && s.heap[s.at[g].lock].owner.None?
      && var l := s.at[g].lock;
         next == s.(heap := s.heap[l := s.heap[l].(owner := Some(g))], at := s.at[g := Holding(s.at[g].key, l)])
    case Release(g) =>
      && g in s.at && s.at[g].Holding? && s.at[g].lock in s.heap
      && var l := s.at[g].lock;
         next == s.(heap := s.heap[l := s.heap[l].(owner := None)], at := s.at[g := Leaving(s.at[g].key, l)])
    case Leave(g) =>
      g in s.at && s.at[g].Leaving? && s.at[g].lock in s.heap && next == Left(s, g)
  }

  // --------------------------------------------------------------- the invariant

  /** Everyone counted in on a lock object. */
  function Users(at: map<Goroutine, At>, l: LockRef): set<Goroutine>
  {
    set g | g in at && at[g].lock == l
  }

  ghost predicate CountsRight(s: Mutex)
  {
    forall l :: l in s.heap ==> s.heap[l].refcount == |Users(s.at, l)|
  }

  /** A lock object somebody is counted in on is the one its key leads to. */
  ghost predicate UsedIsMapped(s: Mutex)
  {
    forall g :: g in s.at ==> s.at[g].key in s.locks && s.locks[s.at[g].key] == s.at[g].lock && s.at[g].lock in s.heap
  }

  ghost predicate KeyUsed(at: map<Goroutine, At>, k: LockKey)
  {
    exists g :: g in at && at[g].key == k
  }

  /** A key nobody uses is absent. */
  ghost predicate MappedIsUsed(s: Mutex)
  {
    forall k {:trigger KeyUsed(s.at, k)} :: k in s.locks ==> KeyUsed(s.at, k)
  }

  ghost predicate OwnedRight(s: Mutex)
  {
    forall l, g :: l in s.heap ==> (s.heap[l].owner == Some(g) <==> g in s.at && s.at[g].Holding? && s.at[g].lock == l)
  }

  /** A lock object belongs to one key, and is there. */
  ghost predicate OneKeyEach(s: Mutex)
  {
    && (forall k :: k in s.locks ==> s.locks[k] in s.heap)
    && (forall k, m :: k in s.locks && m in s.locks && k != m ==> s.locks[k] != s.locks[m])
  }

  ghost predicate Sound(s: Mutex)
  {
    CountsRight(s) && UsedIsMapped(s) && MappedIsUsed(s) && OwnedRight(s) && OneKeyEach(s)
  }

  lemma StartsSound()
    ensures Sound(Mutex(map[], map[], map[]))
  {
  }

  lemma UsersSame(at: map<Goroutine, At>, now: map<Goroutine, At>, l: LockRef)
    requires now.Keys == at.Keys && forall g :: g in at ==> at[g].lock == now[g].lock
    ensures Users(now, l) == Users(at, l)
  {
  }

  lemma UsersJoin(at: map<Goroutine, At>, g: Goroutine, where: At, l: LockRef)
    requires g !in at
    ensures Users(at[g := where], l) == Users(at, l) + if where.lock == l then {g} else {}
    ensures g !in Users(at, l)
  {
  }

  lemma CountsKept(s: Mutex, st: Step, next: Mutex)
    requires CountsRight(s) && UsedIsMapped(s) && Steps(s, st, next)
    ensures CountsRight(next)
  {
    forall m | m in next.heap
      ensures next.heap[m].refcount == |Users(next.at, m)|
    {
      match st
      case Enter(_, _, _) => EnterCounted(s, st, next, m);
      case Acquire(g) => UsersSame(s.at, next.at, m);
      case Release(g) => UsersSame(s.at, next.at, m);
      case Leave(g) => LeaveCounted(s, g, next, m);
    }
  }

  lemma EnterCounted(s: Mutex, st: Step, next: Mutex, m: LockRef)
    requires CountsRight(s) && UsedIsMapped(s) && st.Enter? && Steps(s, st, next) && m in next.heap
    ensures next.heap[m].refcount == |Users(next.at, m)|
  {
    UsersJoin(s.at, st.g, next.at[st.g], m);
    assert m !in s.heap ==> Users(s.at, m) == {};
  }

  lemma LeaveCounted(s: Mutex, g: Goroutine, next: Mutex, m: LockRef)
    requires CountsRight(s) && UsedIsMapped(s) && Steps(s, Leave(g), next) && m in next.heap
    ensures next.heap[m].refcount == |Users(next.at, m)|
  {
    UsersJoin(next.at, g, s.at[g], m);
    assert next.at[g := s.at[g]] == s.at;
  }

  lemma MappedKept(s: Mutex, st: Step, next: Mutex)
    requires CountsRight(s) && UsedIsMapped(s) && CountsRight(next) && Steps(s, st, next)
    ensures UsedIsMapped(next)
  {
    if st.Leave? {
      var key, l := s.at[st.g].key, s.at[st.g].lock;
      forall h | h in next.at
        ensures next.at[h].key in next.locks
      {
        if s.at[h].key == key {
          assert h in Users(next.at, l);
        }
      }
    }
  }

  lemma UsedKept(s: Mutex, st: Step, next: Mutex)
    requires CountsRight(next) && UsedIsMapped(s) && MappedIsUsed(s) && OneKeyEach(s) && Steps(s, st, next)
    ensures MappedIsUsed(next)
  {
    forall k | k in next.locks
      ensures KeyUsed(next.at, k)
    {
      if st.Enter? && k == st.key {
        assert next.at[st.g].key == k;
      } else {
        assert KeyUsed(s.at, k);
        var h :| h in s.at && s.at[h].key == k;
        if h in next.at {
          assert next.at[h].key == k;
        } else {
          StillUsed(s, st.g, next, k);
        }
      }
    }
  }

  /** A key still there after one has left is one another uses. */
  lemma StillUsed(s: Mutex, g: Goroutine, next: Mutex, k: LockKey)
    requires CountsRight(next) && UsedIsMapped(s) && OneKeyEach(s) && Steps(s, Leave(g), next)
    requires k == s.at[g].key && k in next.locks
    ensures KeyUsed(next.at, k)
  {
    var l := s.at[g].lock;
    var h :| h in Users(next.at, l);
    assert next.at[h] == s.at[h] && s.at[h].key in s.locks;
  }

  lemma OwnedKept(s: Mutex, st: Step, next: Mutex)
    requires OwnedRight(s) && UsedIsMapped(s) && OneKeyEach(s) && Steps(s, st, next)
    ensures OwnedRight(next)
  {
  }

  lemma OneKeyKept(s: Mutex, st: Step, next: Mutex)
    requires OneKeyEach(s) && Steps(s, st, next)
    ensures OneKeyEach(next)
  {
  }

  lemma StepKeepsSound(s: Mutex, st: Step, next: Mutex)
    requires Sound(s) && Steps(s, st, next)
    ensures Sound(next)
  {
    CountsKept(s, st, next);
    MappedKept(s, st, next);
    UsedKept(s, st, next);
    OwnedKept(s, st, next);
    OneKeyKept(s, st, next);
  }

  // ------------------------------------------------------------ in every interleaving

  ghost predicate Run(states: seq<Mutex>, steps: seq<Step>)
  {
    && |states| == |steps| + 1 && states[0] == Mutex(map[], map[], map[])
    && forall i, j :: 0 <= i < |steps| && j == i + 1 ==> Steps(states[i], steps[i], states[j])
  }

  lemma {:induction false} EveryRunSound(states: seq<Mutex>, steps: seq<Step>, i: nat)
    requires Run(states, steps) && i < |states|
    ensures Sound(states[i])
  {
    if i == 0 {
      StartsSound();
    } else {
      EveryRunSound(states, steps, i - 1);
      StepKeepsSound(states[i - 1], steps[i - 1], states[i]);
    }
  }

  /** At most one goroutine holds a key at a time. */
  lemma MutualExclusion(states: seq<Mutex>, steps: seq<Step>, i: nat, g: Goroutine, h: Goroutine)
    requires Run(states, steps) && i < |states|
    requires g in states[i].at && h in states[i].at && states[i].at[g].Holding? && states[i].at[h].Holding?
    requires states[i].at[g].key == states[i].at[h].key
    ensures g == h
  {
    EveryRunSound(states, steps, i);
    var s := states[i];
    var l := s.at[g].lock;
    assert s.heap[l].owner == Some(g);
    assert s.heap[l].owner == Some(h);
  }

  /** And once nobody is counted in anywhere, nothing is kept. */
  lemma NothingKept(states: seq<Mutex>, steps: seq<Step>, i: nat)
    requires Run(states, steps) && i < |states|
    ensures states[i].at == map[] <==> states[i].locks == map[]
  {
    EveryRunSound(states, steps, i);
    var s := states[i];
    if s.at == map[] {
      forall k
        ensures k !in s.locks
      {
        assert !KeyUsed(s.at, k);
      }
      assert s.locks.Keys == {};
    }
    if s.locks == map[] {
      assert s.at.Keys == {};
    }
  }
}
