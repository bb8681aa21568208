/** A member over its whole life: entries delivered, snapshots asked for, written
    and installed, shutdowns and restarts, an older database put back. */
module Replica {
  import opened Dns
  import opened Machine

  /** Where Raft stands beside the state machine: how far it has delivered, the
      snapshots it keeps, newest first, and one asked for and not yet written. */
  datatype Node<C> = Node(m: Member<C>, pos: nat, snaps: seq<Snap<C>>, asked: Option<nat>)

  datatype Event<!C> =
    | Deliver(tries: nat -> Try)
    | Ask
    | Write
    | Install(s: Option<Snap<C>>, how: Try)
    | Shutdown
    | Restart(put: Option<(C, nat)>, how: Try)

  predicate Commands<B>(e: Entry<B>)
  {
    e.Command? || e.Unreadable?
  }

  /** What the first entries of the log come to. */
  ghost function Fold<C, B>(carry: Carry<C, B>, zero: C, log: seq<Entry<B>>, k: nat): Option<C>
    requires k <= |log|
  {
    if k == 0 then Some(zero)
    else
      match Fold(carry, zero, log, k - 1)
      case None => None
      case Some(c) =>
        match log[k - 1]
        case Command(b) => carry(c, b)
        case Unreadable => None
        case _ => Some(c)
  }

  /** No entry after the one position and up to the other is a command. */
  ghost predicate Idle<B>(log: seq<Entry<B>>, lo: nat, hi: nat)
  {
    forall i :: lo <= i < hi && i < |log| ==> !Commands(log[i])
  }

  lemma {:induction false} IdleFolds<C, B>(carry: Carry<C, B>, zero: C, log: seq<Entry<B>>, lo: nat, hi: nat)
    requires lo <= hi <= |log| && Idle(log, lo, hi)
    ensures Fold(carry, zero, log, hi) == Fold(carry, zero, log, lo)
    decreases hi
  {
    if lo < hi {
      IdleFolds(carry, zero, log, lo, hi - 1);
      assert !Commands(log[hi - 1]);
    }
  }

  // --------------------------------------------------------------- the steps

  function Delivered<C, B>(carry: Carry<C, B>, n: Node<C>, e: Entry<B>, tries: nat -> Try): Node<C>
  {
    var at := n.pos + 1;
    var m := match e
      case Command(_) => ApplyEntry(carry, n.m, e, at, tries)
      case Unreadable => ApplyEntry(carry, n.m, e, at, tries)
      case Configuration => PassConfiguration(carry, n.m, at, tries(0))
      case Internal => n.m;
    n.(m := m, pos := at)
  }

  /** Starting: Raft takes up at its newest snapshot, and a database behind that
      is brought up to it first. */
  function Started<C>(n: Node<C>, db: (C, nat), how: Try): Node<C>
  {
    var m := Member(db.0, db.1, None, true);
    if n.snaps == [] then Node(m, 0, [], None)
    else
      var newest := n.snaps[0];
      Node(if db.1 < newest.filed then Restored(m, Some(newest), how) else m, newest.filed, n.snaps, None)
  }

  /** Raft files a snapshot before it has it restored, and keeps it either way. */
  function Installed<C>(n: Node<C>, s: Option<Snap<C>>, how: Try): Node<C>
  {
    var m := Restored(n.m, s, how);
    if s.None? then n.(m := m)
    else
      var restored := n.m.stall.None? && m.stall.None? && m.up;
      n.(m := m, pos := if restored then s.value.filed else n.pos, snaps := [s.value] + n.snaps)
  }

  ghost predicate Steps<C, B>(carry: Carry<C, B>, zero: C, log: seq<Entry<B>>, n: Node<C>, ev: Event<C>, next: Node<C>)
  {
    match ev
    case Deliver(tries) => n.m.up && n.pos < |log| && next == Delivered(carry, n, log[n.pos], tries)
    case Ask => n.m.up && next == n.(asked := Some(n.pos))
    case Write =>
      n.m.up && n.asked.Some? &&
      next == n.(snaps := [Snap(n.asked.value, n.m.applied, false, n.m.content)] + n.snaps, asked := None)
    case Install(s, how) =>
      n.m.up && (s.Some? ==> n.pos < s.value.filed && GoodSnap(carry, zero, log, s.value)) && next == Installed(n, s, how)
    case Shutdown => next == n.(m := n.m.(up := false))
    case Restart(put, how) =>
      !n.m.up && (put.Some? ==> Stored(carry, zero, log, put.value.0, put.value.1)) &&
      next == Started(n, if put.Some? then put.value else (n.m.content, n.m.applied), how)
  }

  // --------------------------------------------------------------- the invariant

  /** The content is what the log comes to at the position stored with it. */
  ghost predicate Stored<C, B>(carry: Carry<C, B>, zero: C, log: seq<Entry<B>>, content: C, applied: nat)
  {
    applied <= |log| && Fold(carry, zero, log, applied) == Some(content)
  }

  /** A snapshot names its own position truly, and Raft files it past no command
      that it lacks. */
  ghost predicate GoodSnap<C, B>(carry: Carry<C, B>, zero: C, log: seq<Entry<B>>, s: Snap<C>)
  {
    && s.filed <= |log|
    && (!s.bare ==> Stored(carry, zero, log, s.content, s.index) && Idle(log, s.index, s.filed))
  }

  ghost predicate Good<C, B>(carry: Carry<C, B>, zero: C, log: seq<Entry<B>>, n: Node<C>)
  {
    && Stored(carry, zero, log, n.m.content, n.m.applied)
    && n.pos <= |log|
    && (n.m.up && n.m.stall.None? ==> Idle(log, n.m.applied, n.pos))
    && (forall i :: 0 <= i < |n.snaps| ==> GoodSnap(carry, zero, log, n.snaps[i]))
    && (n.asked.Some? ==> n.asked.value <= n.pos && Idle(log, n.m.applied, n.asked.value))
  }

  lemma StartsGood<C, B>(carry: Carry<C, B>, zero: C, log: seq<Entry<B>>)
    ensures Good(carry, zero, log, Node(Member(zero, 0, None, true), 0, [], None))
  {
  }

  /** Carrying an entry out at its place in the log. */
  lemma {:induction false} AttemptsStored<C, B>(carry: Carry<C, B>, zero: C, log: seq<Entry<B>>, m: Member<C>, at: nat, tries: nat -> Try, k: nat)
    requires k < ATTEMPTS && 0 < at <= |log| && log[at - 1].Command? && m.stall.None? && m.up
    requires Stored(carry, zero, log, m.content, m.applied) && Idle(log, m.applied, at - 1)
    ensures var next := Attempts(carry, m, log[at - 1].batch, at, tries, k);
            && Stored(carry, zero, log, next.content, next.applied) && m.applied <= next.applied
            && (next.up && next.stall.None? ==> at <= next.applied)
    decreases ATTEMPTS - k
  {
    if tries(k) == Cancelled {
    } else if ApplyAt(carry, m, Some(log[at - 1].batch), at, tries(k)).Some? {
      if m.applied < at {
        IdleFolds(carry, zero, log, m.applied, at - 1);
      }
    } else if k + 1 < ATTEMPTS {
      AttemptsStored(carry, zero, log, m, at, tries, k + 1);
    }
  }

  lemma ConfigurationStored<C, B>(carry: Carry<C, B>, zero: C, log: seq<Entry<B>>, m: Member<C>, at: nat, how: Try)
    requires 0 < at <= |log| && log[at - 1].Configuration? && m.stall.None? && m.up
    requires Stored(carry, zero, log, m.content, m.applied) && Idle(log, m.applied, at - 1)
    ensures var next := PassConfiguration<C, B>(carry, m, at, how);
            && Stored(carry, zero, log, next.content, next.applied) && m.applied <= next.applied
            && Idle(log, next.applied, at)
  {
    if m.applied < at {
      IdleFolds(carry, zero, log, m.applied, at);
    }
  }

  lemma DeliveredStored<C, B>(carry: Carry<C, B>, zero: C, log: seq<Entry<B>>, n: Node<C>, tries: nat -> Try)
    requires Stored(carry, zero, log, n.m.content, n.m.applied) && n.m.up && n.pos < |log|
    requires n.m.stall.None? ==> Idle(log, n.m.applied, n.pos)
    ensures var m := Delivered(carry, n, log[n.pos], tries).m;
            && Stored(carry, zero, log, m.content, m.applied) && n.m.applied <= m.applied
            && (m.up && m.stall.None? ==> Idle(log, m.applied, n.pos + 1))
  {
    var at := n.pos + 1;
    var m := Delivered(carry, n, log[n.pos], tries).m;
    if n.m.stall.None? {
      match log[n.pos]
      case Command(b) =>
        AttemptsStored(carry, zero, log, n.m, at, tries, 0);
        assert m == Attempts(carry, n.m, b, at, tries, 0);
      case Configuration =>
        ConfigurationStored<C, B>(carry, zero, log, n.m, at, tries(0));
        assert m == PassConfiguration<C, B>(carry, n.m, at, tries(0));
      case Unreadable => assert m.stall == Some(at);
      case Internal => assert m == n.m;
    } else {
      assert m == n.m;
    }
  }

  lemma DeliverKeepsGood<C, B>(carry: Carry<C, B>, zero: C, log: seq<Entry<B>>, n: Node<C>, tries: nat -> Try)
    requires Good(carry, zero, log, n) && n.m.up && n.pos < |log|
    ensures Good(carry, zero, log, Delivered(carry, n, log[n.pos], tries))
  {
    DeliveredStored(carry, zero, log, n, tries);
  }

  lemma RestoreKeepsGood<C, B>(carry: Carry<C, B>, zero: C, log: seq<Entry<B>>, m: Member<C>, s: Snap<C>, how: Try)
    requires Stored(carry, zero, log, m.content, m.applied) && GoodSnap(carry, zero, log, s) && m.stall.None?
    ensures var next := Restored(m, Some(s), how);
            && Stored(carry, zero, log, next.content, next.applied)
            && (next.up && next.stall.None? ==> Idle(log, next.applied, s.filed))
            && ((next.content == m.content && next.applied == m.applied) || Idle(log, next.applied, s.filed))
  {
  }

  /** A snapshot may be asked for unless a command has gone by unapplied. */
  ghost predicate MayAsk<C, B>(log: seq<Entry<B>>, n: Node<C>, ev: Event<C>)
  {
    ev.Ask? ==> Idle(log, n.m.applied, n.pos)
  }

  lemma StepKeepsGood<C, B>(carry: Carry<C, B>, zero: C, log: seq<Entry<B>>, n: Node<C>, ev: Event<C>, next: Node<C>)
    requires Good(carry, zero, log, n) && Steps(carry, zero, log, n, ev, next) && MayAsk(log, n, ev)
    ensures Good(carry, zero, log, next)
  {
    match ev
    case Deliver(tries) => DeliverKeepsGood(carry, zero, log, n, tries);
    case Ask =>
    case Write =>
    case Install(s, how) => if s.Some? && n.m.stall.None? { RestoreKeepsGood(carry, zero, log, n.m, s.value, how); }
    case Shutdown =>
    case Restart(put, how) =>
      var db := if put.Some? then put.value else (n.m.content, n.m.applied);
      if n.snaps != [] {
        RestoreKeepsGood(carry, zero, log, Member(db.0, db.1, None, true), n.snaps[0], how);
      }
  }

  /** A run of one member, from an empty store on. */
  ghost predicate Run<C, B>(carry: Carry<C, B>, zero: C, log: seq<Entry<B>>, nodes: seq<Node<C>>, events: seq<Event<C>>)
  {
    && |nodes| == |events| + 1 && nodes[0] == Node(Member(zero, 0, None, true), 0, [], None)
    && forall i, j :: 0 <= i < |events| && j == i + 1 ==>
         Steps(carry, zero, log, nodes[i], events[i], nodes[j]) && MayAsk(log, nodes[i], events[i])
  }

  /** In every run: the content is the fold of the log up to the stored position,
      and on a running member that has not stalled Raft has gone past no command
      that is not in it. */
  lemma {:induction false} EveryRunHolds<C, B>(carry: Carry<C, B>, zero: C, log: seq<Entry<B>>, nodes: seq<Node<C>>, events: seq<Event<C>>, i: nat)
    requires Run(carry, zero, log, nodes, events) && i < |nodes|
    ensures Good(carry, zero, log, nodes[i])
  {
    if i == 0 {
      StartsGood(carry, zero, log);
    } else {
      EveryRunHolds(carry, zero, log, nodes, events, i - 1);
      StepKeepsGood(carry, zero, log, nodes[i - 1], events[i - 1], nodes[i]);
    }
  }

  /** Two members at the same stored position hold the same. */
  lemma MembersAgree<C, B>(carry: Carry<C, B>, zero: C, log: seq<Entry<B>>, a: Node<C>, b: Node<C>)
    requires Good(carry, zero, log, a) && Good(carry, zero, log, b) && a.m.applied == b.m.applied
    ensures a.m.content == b.m.content
  {
  }

  // -------------------------------------------------------------------- stalls

  /** Until the member is started again, a stall freezes what it holds and where
      it says it stopped. */
  lemma StallFreezes<C, B>(carry: Carry<C, B>, zero: C, log: seq<Entry<B>>, n: Node<C>, ev: Event<C>, next: Node<C>)
    requires Steps(carry, zero, log, n, ev, next) && n.m.stall.Some? && !ev.Restart?
    ensures next.m.content == n.m.content && next.m.applied == n.m.applied && next.m.stall == n.m.stall
  {
  }

  lemma {:induction false} StallFreezesRun<C, B>(carry: Carry<C, B>, zero: C, log: seq<Entry<B>>, nodes: seq<Node<C>>, events: seq<Event<C>>, i: nat, j: nat)
    requires Run(carry, zero, log, nodes, events) && i <= j < |nodes| && nodes[i].m.stall.Some?
    requires forall k :: i <= k < j ==> !events[k].Restart?
    ensures nodes[j].m.content == nodes[i].m.content && nodes[j].m.applied == nodes[i].m.applied && nodes[j].m.stall == nodes[i].m.stall
    decreases j
  {
    if i < j {
      StallFreezesRun(carry, zero, log, nodes, events, i, j - 1);
      StallFreezes(carry, zero, log, nodes[j - 1], events[j - 1], nodes[j]);
    }
  }

  // ------------------------------------------------ what the position does pass

  /** In no run does Raft's position pass the stored one on a running member that has
      not stalled. */
  ghost predicate NeverPasses<C(!new), B(!new)>(carry: Carry<C, B>, zero: C, log: seq<Entry<B>>)
  {
    forall nodes: seq<Node<C>>, events: seq<Event<C>> :: Run(carry, zero, log, nodes, events) ==> NonePast(nodes)
  }

  ghost predicate NonePast<C>(nodes: seq<Node<C>>)
  {
    forall i :: 0 <= i < |nodes| && nodes[i].m.up && nodes[i].m.stall.None? ==> nodes[i].pos <= nodes[i].m.applied
  }

  /** Over a log of commands alone, and over no other. */
  lemma NeverPassesIff<C(!new), B(!new)>(carry: Carry<C, B>, zero: C, log: seq<Entry<B>>)
    requires Fold(carry, zero, log, |log|).Some?
    ensures NeverPasses(carry, zero, log) <==> forall i :: 0 <= i < |log| ==> Commands(log[i])
  {
    if forall i :: 0 <= i < |log| ==> Commands(log[i]) {
      forall nodes: seq<Node<C>>, events: seq<Event<C>> | Run(carry, zero, log, nodes, events)
        ensures NonePast(nodes)
      {
        forall i | 0 <= i < |nodes| && nodes[i].m.up && nodes[i].m.stall.None?
          ensures nodes[i].pos <= nodes[i].m.applied
        {
          EveryRunHolds(carry, zero, log, nodes, events, i);
          NowhereIdle(log, nodes[i].m.applied, nodes[i].pos);
        }
      }
    } else {
      var k := FirstIdle(log);
      PassesAt(carry, zero, log, k);
    }
  }

  lemma NowhereIdle<B>(log: seq<Entry<B>>, lo: nat, hi: nat)
    requires hi <= |log| && forall i :: 0 <= i < |log| ==> Commands(log[i])
    ensures Idle(log, lo, hi) <==> hi <= lo
  {
    if lo < hi { assert Commands(log[lo]); }
  }

  lemma {:induction false} FirstIdle<B>(log: seq<Entry<B>>) returns (k: nat)
    requires exists i :: 0 <= i < |log| && !Commands(log[i])
    ensures k < |log| && !Commands(log[k]) && forall i :: 0 <= i < k ==> Commands(log[i])
  {
    k := 0;
    while Commands(log[k])
      invariant k < |log| && forall i :: 0 <= i < k ==> Commands(log[i])
      invariant exists i :: k <= i < |log| && !Commands(log[i])
      decreases |log| - k
    {
      k := k + 1;
    }
  }

  /** The commands before it applied, the entry itself delivered and not written. */
  ghost function Reaching<C, B>(carry: Carry<C, B>, zero: C, log: seq<Entry<B>>, k: nat, j: nat): Node<C>
    requires k < |log| && Fold(carry, zero, log, |log|).Some?
  {
    if j <= k then
      FoldedBefore(carry, zero, log, j, |log|);
      Node(Member(Fold(carry, zero, log, j).value, j, None, true), j, [], None)
    else
      FoldedBefore(carry, zero, log, k, |log|);
      Node(Member(Fold(carry, zero, log, k).value, k, None, true), k + 1, [], None)
  }

  lemma {:induction false} FoldedBefore<C, B>(carry: Carry<C, B>, zero: C, log: seq<Entry<B>>, k: nat, n: nat)
    requires k <= n <= |log| && Fold(carry, zero, log, n).Some?
    ensures Fold(carry, zero, log, k).Some?
    decreases n
  {
    if k < n { FoldedBefore(carry, zero, log, k, n - 1); }
  }

  lemma ReachingSteps<C, B>(carry: Carry<C, B>, zero: C, log: seq<Entry<B>>, k: nat, j: nat)
    requires k < |log| && Fold(carry, zero, log, |log|).Some? && j <= k && !Commands(log[k])
    requires forall i :: 0 <= i < k ==> Commands(log[i])
    ensures Steps(carry, zero, log, Reaching(carry, zero, log, k, j), Deliver((t: nat) => if j < k then Runs else Fails),
                  Reaching(carry, zero, log, k, j + 1))
  {
    FoldedBefore(carry, zero, log, j + 1, |log|);
    if j < k {
      assert Commands(log[j]);
    }
  }

  lemma ReachingRun<C, B>(carry: Carry<C, B>, zero: C, log: seq<Entry<B>>, k: nat) returns (nodes: seq<Node<C>>, events: seq<Event<C>>)
    requires k < |log| && Fold(carry, zero, log, |log|).Some? && !Commands(log[k])
    requires forall i :: 0 <= i < k ==> Commands(log[i])
    ensures Run(carry, zero, log, nodes, events) && |nodes| == k + 2 && nodes[k + 1] == Reaching(carry, zero, log, k, k + 1)
  {
    nodes := seq(k + 2, j requires 0 <= j < k + 2 => Reaching(carry, zero, log, k, j));
    events := seq(k + 1, j requires 0 <= j < k + 1 => Deliver((t: nat) => if j < k then Runs else Fails));
    forall i, j | 0 <= i < |events| && j == i + 1
      ensures Steps(carry, zero, log, nodes[i], events[i], nodes[j]) && MayAsk(log, nodes[i], events[i])
    {
      ReachingSteps(carry, zero, log, k, i);
    }
  }

  lemma PassesAt<C(!new), B(!new)>(carry: Carry<C, B>, zero: C, log: seq<Entry<B>>, k: nat)
    requires k < |log| && Fold(carry, zero, log, |log|).Some? && !Commands(log[k])
    requires forall i :: 0 <= i < k ==> Commands(log[i])
    ensures !NeverPasses(carry, zero, log)
  {
    var nodes, events := ReachingRun(carry, zero, log, k);
    var last := nodes[k + 1];
    assert last.m.up && last.m.stall.None? && last.m.applied < last.pos;
    assert !NonePast(nodes);
  }

  // ------------------------------------------------- snapshots past a stall

  /** A fresh member started from a snapshot. */
  function StartedFrom<C>(zero: C, s: Snap<C>): Node<C>
  {
    Started(Node(Member(zero, 0, None, false), 0, [s], None), (zero, 0), Runs)
  }

  /** And delivered the log from there on. */
  ghost function CaughtUp<C, B>(carry: Carry<C, B>, n: Node<C>, log: seq<Entry<B>>, k: nat): Node<C>
    requires n.pos <= k <= |log|
    decreases k
  {
    if k == n.pos then n else Delivered(carry, CaughtUp(carry, n, log, k - 1), log[k - 1], (t: nat) => Runs)
  }

  ghost predicate Current<C, B>(carry: Carry<C, B>, zero: C, log: seq<Entry<B>>, n: Node<C>)
  {
    && n.m.up && n.m.stall.None? && n.pos <= |log|
    && Stored(carry, zero, log, n.m.content, n.m.applied) && Idle(log, n.m.applied, n.pos)
  }

  lemma DeliveredCurrent<C, B>(carry: Carry<C, B>, zero: C, log: seq<Entry<B>>, n: Node<C>)
    requires Current(carry, zero, log, n) && n.pos < |log| && Fold(carry, zero, log, n.pos + 1).Some?
    ensures Current(carry, zero, log, Delivered(carry, n, log[n.pos], (t: nat) => Runs))
  {
    DeliveredStored(carry, zero, log, n, (t: nat) => Runs);
    if log[n.pos].Command? && n.m.applied <= n.pos {
      IdleFolds(carry, zero, log, n.m.applied, n.pos);
    }
  }

  lemma {:induction false} CatchesUp<C, B>(carry: Carry<C, B>, zero: C, log: seq<Entry<B>>, n: Node<C>, k: nat)
    requires Current(carry, zero, log, n) && n.pos <= k <= |log| && Fold(carry, zero, log, |log|).Some?
    ensures Current(carry, zero, log, CaughtUp(carry, n, log, k)) && CaughtUp(carry, n, log, k).pos == k
    decreases k
  {
    if n.pos < k {
      CatchesUp(carry, zero, log, n, k - 1);
      FoldedBefore(carry, zero, log, k, |log|);
      DeliveredCurrent(carry, zero, log, CaughtUp(carry, n, log, k - 1));
    }
  }

  /** The snapshot a member would write if it were asked now. */
  function SnapshotOf<C>(n: Node<C>): Snap<C>
  {
    Snap(n.pos, n.m.applied, false, n.m.content)
  }

  /** Started from a snapshot for which no command was passed over, and delivered the
      rest, a member holds what the whole log comes to. */
  lemma SnapshotServes<C, B>(carry: Carry<C, B>, zero: C, log: seq<Entry<B>>, n: Node<C>)
    requires Good(carry, zero, log, n) && n.m.applied > 0 && n.pos > 0 && Idle(log, n.m.applied, n.pos)
    requires Fold(carry, zero, log, |log|).Some?
    ensures Some(CaughtUp(carry, StartedFrom(zero, SnapshotOf(n)), log, |log|).m.content) == Fold(carry, zero, log, |log|)
  {
    var start := StartedFrom(zero, SnapshotOf(n));
    CatchesUp(carry, zero, log, start, |log|);
    var m := CaughtUp(carry, start, log, |log|).m;
    IdleFolds(carry, zero, log, m.applied, |log|);
  }

  /** No command adds more to the content than it weighs. */
  ghost predicate Bounded<C(!new), B(!new)>(carry: Carry<C, B>, size: C -> nat, weight: B -> nat)
  {
    forall c, b :: carry(c, b).Some? ==> size(carry(c, b).value) <= size(c) + weight(b)
  }

  /** Each command of the log, in its turn, adds just that, and something. */
  ghost predicate Weighty<C, B>(carry: Carry<C, B>, zero: C, log: seq<Entry<B>>, size: C -> nat, weight: B -> nat)
  {
    forall i {:trigger log[i]} :: 0 <= i < |log| && log[i].Command? && Fold(carry, zero, log, i + 1).Some? ==>
      && 0 < weight(log[i].batch) && Fold(carry, zero, log, i).Some?
      && size(Fold(carry, zero, log, i + 1).value) == size(Fold(carry, zero, log, i).value) + weight(log[i].batch)
  }

  ghost function WeightOf<B>(log: seq<Entry<B>>, weight: B -> nat, k: nat): nat
    requires k <= |log|
  {
    if k == 0 then 0 else WeightOf(log, weight, k - 1) + if log[k - 1].Command? then weight(log[k - 1].batch) else 0
  }

  lemma {:induction false} FoldWeighs<C, B>(carry: Carry<C, B>, zero: C, log: seq<Entry<B>>, size: C -> nat, weight: B -> nat, k: nat)
    requires Weighty(carry, zero, log, size, weight) && k <= |log| && Fold(carry, zero, log, k).Some?
    ensures size(Fold(carry, zero, log, k).value) == size(zero) + WeightOf(log, weight, k)
  {
    if k > 0 {
      FoldWeighs(carry, zero, log, size, weight, k - 1);
      assert log[k - 1].Command? ==> k == k - 1 + 1;
    }
  }

  lemma {:induction false} WeightGrows<C, B>(carry: Carry<C, B>, zero: C, log: seq<Entry<B>>, size: C -> nat, weight: B -> nat, lo: nat, hi: nat)
    requires Weighty(carry, zero, log, size, weight) && lo <= hi <= |log| && Fold(carry, zero, log, hi).Some?
    ensures WeightOf(log, weight, lo) <= WeightOf(log, weight, hi)
    ensures forall i :: lo <= i < hi && log[i].Command? ==> WeightOf(log, weight, lo) < WeightOf(log, weight, hi)
    decreases hi
  {
    if lo < hi {
      WeightGrows(carry, zero, log, size, weight, lo, hi - 1);
      assert log[hi - 1].Command? ==> hi == hi - 1 + 1;
    }
  }

  /** What is delivered adds no more than it weighs. */
  lemma {:induction false} CaughtUpWeighs<C(!new), B(!new)>(carry: Carry<C, B>, log: seq<Entry<B>>, size: C -> nat, weight: B -> nat, n: Node<C>, k: nat)
    requires Bounded(carry, size, weight) && n.pos <= k <= |log|
    ensures size(CaughtUp(carry, n, log, k).m.content) + WeightOf(log, weight, n.pos) <= size(n.m.content) + WeightOf(log, weight, k)
    decreases k
  {
    if n.pos < k {
      CaughtUpWeighs(carry, log, size, weight, n, k - 1);
      DeliveredAdds(carry, size, weight, CaughtUp(carry, n, log, k - 1), log[k - 1]);
    }
  }

  lemma DeliveredAdds<C(!new), B(!new)>(carry: Carry<C, B>, size: C -> nat, weight: B -> nat, n: Node<C>, e: Entry<B>)
    requires Bounded(carry, size, weight)
    ensures size(Delivered(carry, n, e, (t: nat) => Runs).m.content) <= size(n.m.content) + if e.Command? then weight(e.batch) else 0
  {
    if e.Command? {
      AttemptsAdd(carry, size, weight, n.m, e.batch, n.pos + 1, 0);
    }
  }

  lemma {:induction false} AttemptsAdd<C(!new), B(!new)>(carry: Carry<C, B>, size: C -> nat, weight: B -> nat, m: Member<C>, b: B, at: nat, k: nat)
    requires Bounded(carry, size, weight) && k < ATTEMPTS
    ensures size(Attempts(carry, m, b, at, (t: nat) => Runs, k).content) <= size(m.content) + weight(b)
    decreases ATTEMPTS - k
  {
    if k + 1 < ATTEMPTS { AttemptsAdd(carry, size, weight, m, b, at, k + 1); }
  }

  /** Where every command adds to the content, exactly then: a member started from the
      snapshot and delivered the rest of the log holds what the log comes to if and only
      if no command had gone by unapplied when the snapshot was asked for. */
  lemma SnapshotServesIff<C(!new), B(!new)>(carry: Carry<C, B>, zero: C, log: seq<Entry<B>>, n: Node<C>, size: C -> nat, weight: B -> nat)
    requires Bounded(carry, size, weight) && Weighty(carry, zero, log, size, weight)
    requires Good(carry, zero, log, n) && n.m.applied > 0 && n.pos > 0 && Fold(carry, zero, log, |log|).Some?
    ensures Some(CaughtUp(carry, StartedFrom(zero, SnapshotOf(n)), log, |log|).m.content) == Fold(carry, zero, log, |log|) <==>
            Idle(log, n.m.applied, n.pos)
  {
    if Idle(log, n.m.applied, n.pos) {
      SnapshotServes(carry, zero, log, n);
    } else {
      var i :| n.m.applied <= i < n.pos && i < |log| && Commands(log[i]);
      FoldedBefore(carry, zero, log, i + 1, |log|);
      FoldedBefore(carry, zero, log, n.pos, |log|);
      FoldWeighs(carry, zero, log, size, weight, n.m.applied);
      FoldWeighs(carry, zero, log, size, weight, |log|);
      WeightGrows(carry, zero, log, size, weight, n.m.applied, n.pos);
      CaughtUpWeighs(carry, log, size, weight, StartedFrom(zero, SnapshotOf(n)), |log|);
    }
  }

  /** A member that stalls at a command it lacks is past it, so from then on no
      snapshot it is asked for is good. */
  lemma StalledIsPast<C, B>(carry: Carry<C, B>, zero: C, log: seq<Entry<B>>, n: Node<C>, tries: nat -> Try)
    requires Good(carry, zero, log, n) && n.m.up && n.m.stall.None? && n.m.applied <= n.pos < |log| && Commands(log[n.pos])
    requires Delivered(carry, n, log[n.pos], tries).m.stall.Some?
    ensures var next := Delivered(carry, n, log[n.pos], tries);
            next.m.stall == Some(next.pos) && !Idle(log, next.m.applied, next.pos)
  {
    var next := Delivered(carry, n, log[n.pos], tries);
    if log[n.pos].Command? {
      StallKeeps(carry, n.m, log[n.pos].batch, n.pos + 1, tries, 0);
    }
    assert Commands(log[next.pos - 1]);
  }

  lemma {:induction false} StallKeeps<C, B>(carry: Carry<C, B>, m: Member<C>, b: B, at: nat, tries: nat -> Try, k: nat)
    requires k < ATTEMPTS && m.stall.None? && Attempts(carry, m, b, at, tries, k).stall.Some?
    ensures Attempts(carry, m, b, at, tries, k) == m.(stall := Some(at))
    decreases ATTEMPTS - k
  {
    if k + 1 < ATTEMPTS && tries(k) != Cancelled && ApplyAt(carry, m, Some(b), at, tries(k)).None? {
      StallKeeps(carry, m, b, at, tries, k + 1);
    }
  }

  // A run that asks a stalled member all the same.

  ghost function Appends(): Carry<seq<nat>, nat>
  {
    (c, b) => Some(c + [b])
  }

  ghost function ShortLog(): seq<Entry<nat>>
  {
    [Configuration, Command(1), Command(2)]
  }

  ghost function Stalling(k: nat): Node<seq<nat>>
    requires k <= 7
  {
    if k == 0 then Node(Member([], 0, None, true), 0, [], None)
    else if k == 1 then Node(Member([], 1, None, true), 1, [], None)
    else if k == 2 then Node(Member([], 1, Some(2), true), 2, [], None)
    else if k == 3 then Node(Member([], 1, Some(2), true), 2, [], Some(2))
    else if k == 4 then Node(Member([], 1, Some(2), true), 2, [Snap(2, 1, false, [])], None)
    else if k == 5 then Node(Member([], 1, Some(2), false), 2, [Snap(2, 1, false, [])], None)
    else if k == 6 then Node(Member([], 1, None, true), 2, [Snap(2, 1, false, [])], None)
    else Node(Member([2], 3, None, true), 3, [Snap(2, 1, false, [])], None)
  }

  ghost function StallingEvent(k: nat): Event<seq<nat>>
    requires k < 7
  {
    if k == 0 then Deliver((t: nat) => Runs)
    else if k == 1 then Deliver((t: nat) => Fails)
    else if k == 2 then Ask
    else if k == 3 then Write
    else if k == 4 then Shutdown
    else if k == 5 then Restart(None, Runs)
    else Deliver((t: nat) => Runs)
  }

  lemma StallingSteps(k: nat)
    requires k < 7
    ensures Steps(Appends(), [], ShortLog(), Stalling(k), StallingEvent(k), Stalling(k + 1))
  {
    if k == 1 {
      AllFail(Appends(), Stalling(1).m, 1, 2, (t: nat) => Fails, 0);
    } else if k == 6 {
      assert [] + [2] == [2];
    }
  }

  /** Written, and started from, the snapshot lets Raft take up after the entry the
      member stalled at, and that entry is lost. */
  lemma SnapshotPastAStallLosesAnEntry()
    ensures forall k: nat :: k < 7 ==> Steps(Appends(), [], ShortLog(), Stalling(k), StallingEvent(k), Stalling(k + 1))
    ensures StallingEvent(2).Ask? && Stalling(2).m.stall == Some(2)
    ensures Stalling(7).m.stall.None? && Stalling(7).m.applied == 3 && Stalling(7).m.content == [2]
    ensures Fold(Appends(), [], ShortLog(), 3) == Some([1, 2])
  {
    forall k: nat | k < 7
      ensures Steps(Appends(), [], ShortLog(), Stalling(k), StallingEvent(k), Stalling(k + 1))
    {
      StallingSteps(k);
    }
    ThreeFold(Appends(), ShortLog());
  }

  lemma {:induction false} AllFail<C, B>(carry: Carry<C, B>, m: Member<C>, b: B, at: nat, tries: nat -> Try, k: nat)
    requires k < ATTEMPTS && forall t :: tries(t) == Fails
    ensures Attempts(carry, m, b, at, tries, k) == m.(stall := Some(at))
    decreases ATTEMPTS - k
  {
    if k + 1 < ATTEMPTS { AllFail(carry, m, b, at, tries, k + 1); }
  }

  lemma ThreeFold(carry: Carry<seq<nat>, nat>, log: seq<Entry<nat>>)
    requires forall c: seq<nat>, b: nat :: carry(c, b) == Some(c + [b])
    requires log == [Configuration, Command(1), Command(2)]
    ensures Fold(carry, [], log, 3) == Some([1, 2])
  {
    assert Fold(carry, [], log, 0) == Some([]);
    assert Fold(carry, [], log, 1) == Some([]);
    assert [] + [1] == [1] && [1] + [2] == [1, 2];
    assert Fold(carry, [], log, 2) == Some([1]);
  }
}
