/** The replicated state machine: one member carrying out a committed log, with
    what it has applied stored beside the content it applied it to. */
module Machine {
  import opened Dns

  /** What a committed log holds. Only commands reach the content. */
  datatype Entry<B> = Command(batch: B) | Unreadable | Configuration | Internal

  /** How one attempt at a transaction goes: the member is shutting down, the
      transaction fails for a reason of its own, or it runs. */
  datatype Try = Cancelled | Fails | Runs

  const ATTEMPTS := 6

  /** What a batch makes of the content; nothing if it cannot be written there. */
  type Carry<!C, !B> = (C, B) -> Option<C>

  datatype Member<C> = Member(content: C, applied: nat, stall: Option<nat>, up: bool)

  // ----------------------------------------------------------------- one entry

  /** The transaction that writes a batch and the position it came from. Nothing
      at or before the stored position is written again. */
  function ApplyAt<C, B>(carry: Carry<C, B>, m: Member<C>, b: Option<B>, at: nat, how: Try): Option<Member<C>>
  {
    if how != Runs then None
    else if at <= m.applied then Some(m)
    else
      match b
      case None => Some(m.(applied := at))
      case Some(batch) =>
        match carry(m.content, batch)
        case None => None
        case Some(next) => Some(m.(content := next, applied := at))
  }

  /** Tries from one attempt on, until one succeeds, the last has failed or the
      member shuts down. */
  function Attempts<C, B>(carry: Carry<C, B>, m: Member<C>, b: B, at: nat, tries: nat -> Try, k: nat): Member<C>
    requires k < ATTEMPTS
    decreases ATTEMPTS - k
  {
    if tries(k) == Cancelled then m.(up := false)
    else
      match ApplyAt(carry, m, Some(b), at, tries(k))
      case Some(next) => next
      case None =>
        if k + 1 == ATTEMPTS then m.(stall := Some(at)) else Attempts(carry, m, b, at, tries, k + 1)
  }

  function ApplyEntry<C, B>(carry: Carry<C, B>, m: Member<C>, e: Entry<B>, at: nat, tries: nat -> Try): Member<C>
  {
    if m.stall.Some? then m
    else
      match e
      case Command(b) => Attempts(carry, m, b, at, tries, 0)
      case Unreadable => m.(stall := Some(at))
      case _ => m
  }

  function PassConfiguration<C, B>(carry: Carry<C, B>, m: Member<C>, at: nat, how: Try): Member<C>
  {
    if m.stall.Some? then m
    else
      match ApplyAt<C, B>(carry, m, None, at, how)
      case Some(next) => next
      case None => if how == Cancelled then m.(up := false) else m
  }

  // ----------------------------------------------------------------- snapshots

  /** A log snapshot: where Raft files it, and the position and content it names
      itself. A witness writes one with no content. */
  datatype Snap<C> = Snap(filed: nat, index: nat, bare: bool, content: C)

  /** Replaces the content with a readable snapshot of a store. */
  function Restored<C>(m: Member<C>, s: Option<Snap<C>>, how: Try): Member<C>
  {
    if m.stall.Some? then m
    else if s.None? then m.(stall := Some(0))
    else if s.value.bare then m.(stall := Some(s.value.index))
    else if how == Cancelled then m.(up := false)
    else if how == Fails || s.value.index == 0 then m.(stall := Some(s.value.index))
    else m.(content := s.value.content, applied := s.value.index)
  }

  /** The state machine Raft drives. */
  class Fsm<C, B> {
    const carry: Carry<C, B>
    var content: C
    var applied: nat
    var stall: Option<nat>
    var up: bool

    constructor (carry: Carry<C, B>, content: C, applied: nat)
      ensures this.carry == carry && Value() == Member(content, applied, None, true)
    {
      this.carry, this.content, this.applied, this.stall, this.up := carry, content, applied, None, true;
    }

    function Value(): Member<C>
      reads this
    {
      Member(content, applied, stall, up)
    }

    method ApplyBatchAt(b: Option<B>, at: nat, how: Try) returns (ok: bool)
      modifies this
      ensures ok <==> ApplyAt(carry, old(Value()), b, at, how).Some?
      ensures Value() == if ok then ApplyAt(carry, old(Value()), b, at, how).value else old(Value())
    {
      if how != Runs { return false; }
      if at <= applied { return true; }
      if b.Some? {
        var next := carry(content, b.value);
        if next.None? { return false; }
        content := next.value;
      }
      applied := at;
      return true;
    }

    /** Only the first stall counts. */
    method Stop(at: nat)
      modifies this
      ensures Value() == if old(stall).Some? then old(Value()) else old(Value()).(stall := Some(at))
    {
      if stall.None? { stall := Some(at); }
    }

    method Apply(e: Entry<B>, at: nat, tries: nat -> Try)
      requires e.Command? || e.Unreadable?
      modifies this
      ensures Value() == ApplyEntry(carry, old(Value()), e, at, tries)
    {
      if stall.Some? { return; }
      if e.Unreadable? {
        Stop(at);
        return;
      }
      var attempt := 0;
      while true
        invariant 0 <= attempt < ATTEMPTS && stall.None?
        invariant Attempts(carry, old(Value()), e.batch, at, tries, 0) == Attempts(carry, Value(), e.batch, at, tries, attempt)
        decreases ATTEMPTS - attempt
      {
        if tries(attempt) == Cancelled {
          up := false;
          return;
        }
        var ok := ApplyBatchAt(Some(e.batch), at, tries(attempt));
        if ok { return; }
        if attempt + 1 == ATTEMPTS {
          Stop(at);
          return;
        }
        attempt := attempt + 1;
      }
    }

    method StoreConfiguration(at: nat, how: Try)
      modifies this
      ensures Value() == PassConfiguration<C, B>(carry, old(Value()), at, how)
    {
      if stall.Some? { return; }
      var ok := ApplyBatchAt(None, at, how);
      if !ok && how == Cancelled { up := false; }
    }

    method Restore(s: Option<Snap<C>>, how: Try)
      modifies this
      ensures Value() == Restored(old(Value()), s, how)
    {
      if stall.Some? { return; }
      if s.None? { Stop(0); return; }
      if s.value.bare { Stop(s.value.index); return; }
      if how == Cancelled { up := false; return; }
      if how == Fails || s.value.index == 0 { Stop(s.value.index); return; }
      content, applied := s.value.content, s.value.index;
    }

    /** Restoring what is written gives any member the content held here and the position
        it is held at, unless nothing has been applied, which no member restores from. */
    method Persist(filed: nat) returns (s: Snap<C>)
      ensures s.filed == filed
      ensures forall m: Member<C> :: m.stall.None? && applied > 0 ==>
                Restored(m, Some(s), Runs) == m.(content := content, applied := applied)
      ensures forall m: Member<C> :: m.stall.None? && applied == 0 ==> Restored(m, Some(s), Runs) == m.(stall := Some(0))
    {
      s := Snap(filed, applied, false, content);
    }
  }
}
