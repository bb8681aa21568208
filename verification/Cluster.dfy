/** Writes through a cluster's leader: one at a time, each planned against the
    state all earlier entries produce. */
module Cluster {
  import opened Dns
  import opened Machine
  import opened Replica

  type Writer = nat

  /** Where a write is. A batch planned was written once already, in a transaction
      thrown away, and this is what it made of the store there. */
  datatype Phase<B, C> =
    | Waiting
    | Holding
    | Settled
    | Planned(batch: B, result: C)
    | Proposed(at: nat, result: C)

  /** The leader for as long as it leads: the log it appends to, how far its store
      has applied it, and the writes in flight. */
  datatype Leader<B, C> = Leader(log: seq<Entry<B>>, applied: nat, holder: Option<Writer>, writes: map<Writer, Phase<B, C>>)

  datatype Move<B> =
    | Arrive(w: Writer)
    | Lock(w: Writer)
    | Settle(w: Writer)
    | Plan(w: Writer, batch: B)
    | Propose(w: Writer)
    | Answer(w: Writer)
    | Unlock(w: Writer)
    | Catch
    | Append(e: Entry<B>)

  ghost predicate In<B, C>(s: Leader<B, C>, w: Writer, p: Phase<B, C>)
  {
    w in s.writes && s.writes[w] == p
  }

  /** The store as it stands. */
  ghost function Content<B, C>(carry: Carry<C, B>, zero: C, s: Leader<B, C>): Option<C>
    requires s.applied <= |s.log|
  {
    Fold(carry, zero, s.log, s.applied)
  }

  /** One move. Settling waits for the barrier; answering waits for the entry to be
      applied here; a write made on behalf of another goes back to planning with
      the lock still held. */
  ghost predicate Moves<B, C>(carry: Carry<C, B>, zero: C, s: Leader<B, C>, mv: Move<B>, next: Leader<B, C>)
    requires s.applied <= |s.log|
  {
    match mv
    case Arrive(w) => w !in s.writes && next == s.(writes := s.writes[w := Waiting])
    case Lock(w) => In(s, w, Waiting) && s.holder.None? && next == s.(holder := Some(w), writes := s.writes[w := Holding])
    case Settle(w) => In(s, w, Holding) && Idle(s.log, s.applied, |s.log|) && next == s.(writes := s.writes[w := Settled])
    case Plan(w, b) =>
      && In(s, w, Settled) && Content(carry, zero, s).Some? && carry(Content(carry, zero, s).value, b).Some?
      && next == s.(writes := s.writes[w := Planned(b, carry(Content(carry, zero, s).value, b).value)])
    case Propose(w) =>
      && w in s.writes && s.writes[w].Planned?
      && next == s.(log := s.log + [Command(s.writes[w].batch)],
                    writes := s.writes[w := Proposed(|s.log| + 1, s.writes[w].result)])
    case Answer(w) =>
      && w in s.writes && s.writes[w].Proposed? && s.writes[w].at <= s.applied
      && next == s.(writes := s.writes[w := Settled])
    case Unlock(w) => In(s, w, Settled) && next == s.(holder := None, writes := s.writes - {w})
    case Catch => s.applied < |s.log| && next == s.(applied := s.applied + 1)
    case Append(e) => !Commands(e) && next == s.(log := s.log + [e])
  }

  // --------------------------------------------------------------- the invariant

  /** Where a write past the barrier stands: every command but its own is applied,
      its plan is true of all of the log, and its own entry is the last command. */
  ghost predicate Sound<B, C>(carry: Carry<C, B>, zero: C, s: Leader<B, C>, p: Phase<B, C>)
    requires s.applied <= |s.log|
  {
    match p
    case Waiting => true
    case Holding => true
    case Settled => Idle(s.log, s.applied, |s.log|)
    case Planned(b, result) =>
      && Idle(s.log, s.applied, |s.log|)
      && Content(carry, zero, s).Some? && carry(Content(carry, zero, s).value, b) == Some(result)
    case Proposed(at, result) =>
      && 0 < at <= |s.log| && Idle(s.log, at, |s.log|) && Fold(carry, zero, s.log, at) == Some(result)
      && Idle(s.log, s.applied, at - 1)
  }

  ghost predicate Orderly<B, C>(carry: Carry<C, B>, zero: C, s: Leader<B, C>)
  {
    && s.applied <= |s.log|
    && Fold(carry, zero, s.log, |s.log|).Some?
    && (forall w :: w in s.writes && !s.writes[w].Waiting? ==> s.holder == Some(w))
    && (forall w :: w in s.writes ==> Sound(carry, zero, s, s.writes[w]))
  }

  /** A leader as it is elected: a log that can be carried out, of which its store has
      applied some, and no write in flight. */
  ghost predicate Elected<B, C>(carry: Carry<C, B>, zero: C, s: Leader<B, C>)
  {
    s.applied <= |s.log| && Fold(carry, zero, s.log, |s.log|).Some? && s.holder.None? && s.writes == map[]
  }

  lemma {:induction false} FoldPrefix<C, B>(carry: Carry<C, B>, zero: C, log: seq<Entry<B>>, e: Entry<B>, k: nat)
    requires k <= |log|
    ensures Fold(carry, zero, log + [e], k) == Fold(carry, zero, log, k)
  {
    if k > 0 {
      FoldPrefix(carry, zero, log, e, k - 1);
      assert (log + [e])[k - 1] == log[k - 1];
    }
  }

  lemma AppendKeepsSound<B, C>(carry: Carry<C, B>, zero: C, s: Leader<B, C>, e: Entry<B>, p: Phase<B, C>)
    requires s.applied <= |s.log| && Sound(carry, zero, s, p) && !Commands(e)
    ensures Sound(carry, zero, s.(log := s.log + [e]), p)
  {
    var log := s.log + [e];
    assert forall i :: 0 <= i < |s.log| ==> log[i] == s.log[i];
    FoldPrefix(carry, zero, s.log, e, s.applied);
    if p.Proposed? { FoldPrefix(carry, zero, s.log, e, p.at); }
  }

  lemma CatchKeepsSound<B, C>(carry: Carry<C, B>, zero: C, s: Leader<B, C>, p: Phase<B, C>)
    requires s.applied < |s.log| && Sound(carry, zero, s, p)
    ensures Sound(carry, zero, s.(applied := s.applied + 1), p)
  {
    if p.Planned? {
      IdleFolds(carry, zero, s.log, s.applied, s.applied + 1);
    }
  }

  lemma ProposeKeepsOrderly<B, C>(carry: Carry<C, B>, zero: C, s: Leader<B, C>, w: Writer, next: Leader<B, C>)
    requires Orderly(carry, zero, s) && Moves(carry, zero, s, Propose(w), next)
    ensures Orderly(carry, zero, next)
  {
    var b, result, n := s.writes[w].batch, s.writes[w].result, |s.log|;
    assert Sound(carry, zero, s, s.writes[w]);
    IdleFolds(carry, zero, s.log, s.applied, n);
    FoldPrefix(carry, zero, s.log, Command(b), n);
    assert next.log[n] == Command(b);
    assert Fold(carry, zero, next.log, n + 1) == Some(result);
    assert forall i :: 0 <= i < n ==> next.log[i] == s.log[i];
    assert Idle(next.log, next.applied, n);
    forall v | v in next.writes
      ensures Sound(carry, zero, next, next.writes[v])
    {
      if v != w { assert s.writes[v].Waiting?; }
    }
  }

  lemma MoveKeepsOrderly<B, C>(carry: Carry<C, B>, zero: C, s: Leader<B, C>, mv: Move<B>, next: Leader<B, C>)
    requires Orderly(carry, zero, s) && Moves(carry, zero, s, mv, next)
    ensures Orderly(carry, zero, next)
  {
    match mv
    case Propose(w) => ProposeKeepsOrderly(carry, zero, s, w, next);
    case Catch =>
      forall v | v in next.writes
        ensures Sound(carry, zero, next, next.writes[v])
      {
        CatchKeepsSound(carry, zero, s, s.writes[v]);
      }
    case Append(e) =>
      FoldPrefix(carry, zero, s.log, e, |s.log|);
      forall v | v in next.writes
        ensures Sound(carry, zero, next, next.writes[v])
      {
        AppendKeepsSound(carry, zero, s, e, s.writes[v]);
      }
    case Answer(w) =>
      assert Sound(carry, zero, s, s.writes[w]);
    case _ =>
      forall v | v in next.writes
        ensures Sound(carry, zero, next, next.writes[v])
      {
        if v in s.writes { assert Sound(carry, zero, s, s.writes[v]); }
      }
  }

  // -------------------------------------------------------------------- whole runs

  /** The moves of one term, from wherever it starts. */
  ghost predicate Led<B, C>(carry: Carry<C, B>, zero: C, states: seq<Leader<B, C>>, moves: seq<Move<B>>)
  {
    && |states| == |moves| + 1
    && forall i, j :: 0 <= i < |moves| && j == i + 1 ==>
         states[i].applied <= |states[i].log| && Moves(carry, zero, states[i], moves[i], states[j])
  }

  ghost predicate Run<B, C>(carry: Carry<C, B>, zero: C, states: seq<Leader<B, C>>, moves: seq<Move<B>>)
  {
    Led(carry, zero, states, moves) && Elected(carry, zero, states[0])
  }

  lemma {:induction false} EveryRunOrderly<B, C>(carry: Carry<C, B>, zero: C, states: seq<Leader<B, C>>, moves: seq<Move<B>>, i: nat)
    requires Run(carry, zero, states, moves) && i < |states|
    ensures Orderly(carry, zero, states[i])
  {
    if i > 0 {
      EveryRunOrderly(carry, zero, states, moves, i - 1);
      MoveKeepsOrderly(carry, zero, states[i - 1], moves[i - 1], states[i]);
    }
  }

  lemma {:induction false} FoldWithin<C, B>(carry: Carry<C, B>, zero: C, log: seq<Entry<B>>, n: nat, k: nat)
    requires k <= n <= |log|
    ensures Fold(carry, zero, log[..n], k) == Fold(carry, zero, log, k)
  {
    if k > 0 { FoldWithin(carry, zero, log, n, k - 1); }
  }

  /** Whatever part of a leader's log the next one has, however far it has applied it,
      it may lead from there. */
  lemma NextIsElected<B, C>(carry: Carry<C, B>, zero: C, s: Leader<B, C>, n: nat, applied: nat)
    requires Orderly(carry, zero, s) && applied <= n <= |s.log|
    ensures Elected(carry, zero, Leader(s.log[..n], applied, None, map[]))
  {
    FoldedBefore(carry, zero, s.log, n, |s.log|);
    FoldWithin(carry, zero, s.log, n, n);
  }

  // -------------------------------------------------------------- term after term

  /** Leaders one after another, from an empty log: each is elected with a part of the
      log some earlier one ended with. */
  ghost predicate Terms<B, C>(carry: Carry<C, B>, zero: C, runs: seq<seq<Leader<B, C>>>, moves: seq<seq<Move<B>>>)
  {
    && |runs| == |moves| && (forall k :: 0 <= k < |runs| ==> Led(carry, zero, runs[k], moves[k]))
    && (|runs| > 0 ==> runs[0][0] == Leader([], 0, None, map[]))
    && forall k :: 0 < k < |runs| ==> exists m :: 0 <= m < k && Succeeds(runs[m][|runs[m]| - 1], runs[k][0])
  }

  ghost predicate Succeeds<B, C>(last: Leader<B, C>, first: Leader<B, C>)
  {
    first.applied <= |first.log| && first.log <= last.log && first.holder.None? && first.writes == map[]
  }

  lemma {:induction false} EveryTermElected<B, C>(carry: Carry<C, B>, zero: C, runs: seq<seq<Leader<B, C>>>, moves: seq<seq<Move<B>>>, k: nat)
    requires Terms(carry, zero, runs, moves) && k < |runs|
    ensures Run(carry, zero, runs[k], moves[k])
  {
    assert Led(carry, zero, runs[k], moves[k]);
    if k > 0 {
      var m :| 0 <= m < k && Succeeds(runs[m][|runs[m]| - 1], runs[k][0]);
      var last, first := runs[m][|runs[m]| - 1], runs[k][0];
      EveryTermElected(carry, zero, runs, moves, m);
      EveryRunOrderly(carry, zero, runs[m], moves[m], |runs[m]| - 1);
      NextIsElected(carry, zero, last, |first.log|, first.applied);
      assert last.log[..|first.log|] == first.log;
    }
  }

  /** So at every moment of every term the log can be carried out, and every plan is true
      of it. */
  lemma EveryTermOrderly<B, C>(carry: Carry<C, B>, zero: C, runs: seq<seq<Leader<B, C>>>, moves: seq<seq<Move<B>>>, k: nat, i: nat)
    requires Terms(carry, zero, runs, moves) && k < |runs| && i < |runs[k]|
    ensures Orderly(carry, zero, runs[k][i])
  {
    EveryTermElected(carry, zero, runs, moves, k);
    EveryRunOrderly(carry, zero, runs[k], moves[k], i);
  }

  /** While it leads, whatever is proposed was planned against exactly what the
      whole log comes to, and the planned result is what the log comes to with it. */
  lemma ProposedAsPlanned<B, C>(carry: Carry<C, B>, zero: C, s: Leader<B, C>, w: Writer, next: Leader<B, C>)
    requires Orderly(carry, zero, s) && Moves(carry, zero, s, Propose(w), next)
    ensures Fold(carry, zero, s.log, |s.log|).Some?
    ensures var before := Fold(carry, zero, s.log, |s.log|).value;
            carry(before, s.writes[w].batch) == Some(s.writes[w].result)
    ensures Fold(carry, zero, next.log, |next.log|) == Some(s.writes[w].result)
  {
    assert Sound(carry, zero, s, s.writes[w]);
    IdleFolds(carry, zero, s.log, s.applied, |s.log|);
    FoldPrefix(carry, zero, s.log, Command(s.writes[w].batch), |s.log|);
  }

  /** So no entry of the log is one a member cannot write: a member whose store is
      true to the log writes the next entry, with the planned result. */
  lemma NoMemberCanRefuse<B, C>(carry: Carry<C, B>, zero: C, s: Leader<B, C>, n: Node<C>, tries: nat -> Try)
    requires Orderly(carry, zero, s) && Good(carry, zero, s.log, n)
    requires n.m.up && n.m.stall.None? && n.pos < |s.log| && s.log[n.pos].Command? && tries(0) == Runs
    ensures Delivered(carry, n, s.log[n.pos], tries).m.stall.None?
    ensures n.m.applied <= n.pos ==>
              Some(Delivered(carry, n, s.log[n.pos], tries).m.content) == Fold(carry, zero, s.log, n.pos + 1)
  {
    if n.m.applied <= n.pos {
      IdleFolds(carry, zero, s.log, n.m.applied, n.pos);
      FoldedBefore(carry, zero, s.log, n.pos + 1, |s.log|);
    }
  }
}
