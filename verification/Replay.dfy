/** The batches of the write path as the commands of the replicated log, each
    carried out at most once however often it is replayed. */
module ReplayOnce {
  import opened Dns
  import opened Changes
  import opened Ordering
  import opened Store
  import opened Write
  import opened Batch
  import opened Machine
  import opened Replica

  predicate InJournal(db: Db, id: CommitId)
  {
    exists i :: 0 <= i < |db.commits| && db.commits[i].id == id
  }

  predicate AllSeen(db: Db, b: Batch)
  {
    forall i :: 0 <= i < |b.commits| ==> InJournal(db, b.commits[i].id)
  }

  predicate SomeSeen(db: Db, b: Batch)
  {
    exists i :: 0 <= i < |b.commits| && InJournal(db, b.commits[i].id)
  }

  method CountSeen(db: Db, b: Batch) returns (seen: nat)
    ensures seen <= |b.commits|
    ensures seen > 0 <==> SomeSeen(db, b)
    ensures seen == |b.commits| <==> AllSeen(db, b)
  {
    seen := 0;
    for i := 0 to |b.commits|
      invariant seen <= i
      invariant seen > 0 <==> exists j :: 0 <= j < i && InJournal(db, b.commits[j].id)
      invariant seen == i <==> forall j :: 0 <= j < i ==> InJournal(db, b.commits[j].id)
    {
      if InJournal(db, b.commits[i].id) {
        seen := seen + 1;
      }
    }
  }

  /** What a member's transaction makes of a batch: nothing more if the journal
      holds it, a conflict if it holds part of it, and otherwise its writes. */
  function Carried(db: Db, b: Batch): Option<Db>
  {
    if b.Empty() then Some(db)
    else if AllSeen(db, b) then Some(db)
    else if SomeSeen(db, b) then None
    else
      match WriteBatch(db, b)
      case Ok(next) => Some(next)
      case Err(_) => None
  }

  method Carry(db: Db, b: Batch) returns (r: Option<Db>)
    ensures r == Carried(db, b)
  {
    if b.Empty() { return Some(db); }
    var seen := CountSeen(db, b);
    if 0 < seen < |b.commits| { return None; }
    if seen > 0 { return Some(db); }
    var next := WriteBatch(db, b);
    return if next.Ok? then Some(next.value) else None;
  }

  lemma {:induction false} DropsKeepJournal(db: Db, ops: seq<ZoneOp>)
    ensures WriteDrops(db, ops).Ok? ==> WriteDrops(db, ops).value.commits == db.commits
    decreases |ops|
  {
    if ops != [] {
      var step := if ops[0].DeleteOp? then DeleteZone(db, ops[0].gone) else Ok(db);
      if step.Ok? { DropsKeepJournal(step.value, ops[1..]); }
    }
  }

  lemma {:induction false} CommitsJoin(db: Db, b: Batch, cs: seq<Commit>)
    ensures WriteCommits(db, b, cs).Ok? ==> WriteCommits(db, b, cs).value.commits == db.commits + cs
    decreases |cs|
  {
    if cs != [] && WriteCommit(db, b, cs[0]).Ok? {
      var next := WriteCommit(db, b, cs[0]).value;
      assert next.commits == db.commits + [cs[0]];
      CommitsJoin(next, b, cs[1..]);
      assert (db.commits + [cs[0]]) + cs[1..] == db.commits + cs;
    }
  }

  lemma {:induction false} OpsKeepJournal(db: Db, ops: seq<ZoneOp>)
    requires WriteOps(db, ops).Ok?
    ensures WriteOps(db, ops).value.commits == db.commits
    decreases |ops|
  {
    if ops != [] {
      var step := match ops[0] case CreateOp(z) => CreateZone(db, z) case UpdateOp(z) => UpdateZone(db, z) case DeleteOp(_) => Ok(db);
      OpsKeepJournal(step.value, ops[1..]);
    }
  }

  lemma {:induction false} DeletesKeepJournal(db: Db, rs: seq<Record>)
    requires DeleteAll(db, rs).Ok?
    ensures DeleteAll(db, rs).value.commits == db.commits
    decreases |rs|
  {
    if rs != [] { DeletesKeepJournal(DeleteRecord(db, rs[0].id).value, rs[1..]); }
  }

  lemma {:induction false} UpdatesKeepJournal(db: Db, us: seq<Update>)
    requires UpdateAll(db, us).Ok?
    ensures UpdateAll(db, us).value.commits == db.commits
    decreases |us|
  {
    if us != [] { UpdatesKeepJournal(UpdateRecord(db, us[0].after).value, us[1..]); }
  }

  lemma {:induction false} InsertsKeepJournal(db: Db, rs: seq<Record>)
    requires InsertAll(db, rs).Ok?
    ensures InsertAll(db, rs).value.commits == db.commits
    decreases |rs|
  {
    if rs != [] { InsertsKeepJournal(InsertRecord(db, rs[0]).value, rs[1..]); }
  }

  lemma QueueKeepsJournal(db: Db, q: Queue)
    requires WriteQueue(db, q).Ok?
    ensures WriteQueue(db, q).value.commits == db.commits
  {
    var n := |q.order|;
    var dels, ins := Ordered(Deletes(q, n), true), Ordered(Inserts(q, n), false);
    var less := DeleteAll(db, dels).value;
    DeletesKeepJournal(db, dels);
    UpdatesKeepJournal(less, Updates(q, n));
    InsertsKeepJournal(UpdateAll(less, Updates(q, n)).value, ins);
  }

  /** The journal after a batch is the one before it, and its commits. */
  lemma JournalGrows(db: Db, b: Batch)
    requires WriteBatch(db, b).Ok?
    ensures WriteBatch(db, b).value.commits == db.commits + b.commits
  {
    var housed := WriteOps(db, b.ops).value;
    var carried := WriteQueue(housed, b.queue).value;
    var recorded := WriteCommits(carried, b, b.commits).value;
    OpsKeepJournal(db, b.ops);
    QueueKeepsJournal(housed, b.queue);
    CommitsJoin(carried, b, b.commits);
    DropsKeepJournal(recorded, b.ops);
  }

  lemma WrittenIsSeen(db: Db, b: Batch)
    requires WriteBatch(db, b).Ok?
    ensures AllSeen(WriteBatch(db, b).value, b)
  {
    var now := WriteBatch(db, b).value;
    JournalGrows(db, b);
    forall i | 0 <= i < |b.commits|
      ensures InJournal(now, b.commits[i].id)
    {
      assert now.commits[|db.commits| + i] == b.commits[i];
    }
  }

  /** Carried out again, a batch changes nothing. */
  lemma OnceIsEnough(db: Db, b: Batch)
    requires Carried(db, b).Some?
    ensures Carried(Carried(db, b).value, b) == Carried(db, b)
  {
    if !b.Empty() && !AllSeen(db, b) {
      WrittenIsSeen(db, b);
    }
  }

  lemma AllIsSome(db: Db, b: Batch)
    requires !b.Empty()
    ensures AllSeen(db, b) ==> SomeSeen(db, b)
  {
    if AllSeen(db, b) {
      assert InJournal(db, b.commits[0].id);
    }
  }

  /** A batch with identifiers of its own is carried out as it was planned. */
  lemma CarriedAsPlanned(db: Db, b: Batch)
    requires !b.Empty() && !SomeSeen(db, b)
    ensures Carried(db, b).Some? <==> WriteBatch(db, b).Ok?
    ensures Carried(db, b).Some? ==> Carried(db, b).value == WriteBatch(db, b).value
  {
    AllIsSome(db, b);
  }

  // -------------------------------------------------- batches with commits of their own

  function Recorded(db: Db): nat
  {
    |db.commits|
  }

  function Records(b: Batch): nat
  {
    |b.commits|
  }

  lemma CarriedIsBounded()
    ensures Bounded(Carried, Recorded, Records)
  {
    forall db, b | Carried(db, b).Some?
      ensures Recorded(Carried(db, b).value) <= Recorded(db) + Records(b)
    {
      if !b.Empty() && !AllSeen(db, b) { JournalGrows(db, b); }
    }
  }

  ghost predicate Has(b: Batch, id: CommitId)
  {
    exists i :: 0 <= i < |b.commits| && b.commits[i].id == id
  }

  /** Every batch of the log makes commits, and no identifier is used twice. */
  ghost predicate Minted(zero: Db, log: seq<Entry<Batch>>)
  {
    forall i :: 0 <= i < |log| && log[i].Command? ==> !log[i].batch.Empty() && MintedAt(zero, log, i)
  }

  ghost predicate MintedAt(zero: Db, log: seq<Entry<Batch>>, i: nat)
    requires i < |log| && log[i].Command?
  {
    forall id :: Has(log[i].batch, id) ==> !InJournal(zero, id) && forall j :: 0 <= j < i && log[j].Command? ==> !Has(log[j].batch, id)
  }

  lemma CarriedSees(db: Db, b: Batch, id: CommitId)
    requires Carried(db, b).Some? && InJournal(Carried(db, b).value, id)
    ensures InJournal(db, id) || Has(b, id)
  {
    if !b.Empty() && !AllSeen(db, b) {
      JournalGrows(db, b);
      JoinedHas(db, b, Carried(db, b).value, id);
    }
  }

  lemma JoinedHas(db: Db, b: Batch, now: Db, id: CommitId)
    requires now.commits == db.commits + b.commits && InJournal(now, id)
    ensures InJournal(db, id) || Has(b, id)
  {
    var i :| 0 <= i < |now.commits| && now.commits[i].id == id;
    if i >= |db.commits| { assert b.commits[i - |db.commits|].id == id; }
  }

  /** What the journal holds, it was given by one of the batches carried out. */
  lemma {:induction false} JournalIsLogged(zero: Db, log: seq<Entry<Batch>>, k: nat, id: CommitId)
    requires k <= |log| && Replica.Fold(Carried, zero, log, k).Some? && InJournal(Replica.Fold(Carried, zero, log, k).value, id)
    ensures InJournal(zero, id) || exists j :: 0 <= j < k && log[j].Command? && Has(log[j].batch, id)
  {
    if k > 0 {
      var db := Replica.Fold(Carried, zero, log, k - 1).value;
      if log[k - 1].Command? { CarriedSees(db, log[k - 1].batch, id); }
      if InJournal(db, id) { JournalIsLogged(zero, log, k - 1, id); }
    }
  }

  lemma MintedIsUnseen(zero: Db, log: seq<Entry<Batch>>, i: nat)
    requires Minted(zero, log) && i < |log| && log[i].Command? && Replica.Fold(Carried, zero, log, i).Some?
    ensures !SomeSeen(Replica.Fold(Carried, zero, log, i).value, log[i].batch)
  {
    var db, b := Replica.Fold(Carried, zero, log, i).value, log[i].batch;
    forall j | 0 <= j < |b.commits|
      ensures !InJournal(db, b.commits[j].id)
    {
      assert Has(b, b.commits[j].id);
      if InJournal(db, b.commits[j].id) { JournalIsLogged(zero, log, i, b.commits[j].id); }
    }
  }

  lemma MintedIsWeighty(zero: Db, log: seq<Entry<Batch>>)
    requires Minted(zero, log)
    ensures Weighty(Carried, zero, log, Recorded, Records)
  {
    forall i | 0 <= i < |log| && log[i].Command? && Replica.Fold(Carried, zero, log, i + 1).Some?
      ensures Replica.Fold(Carried, zero, log, i).Some?
      ensures Recorded(Replica.Fold(Carried, zero, log, i + 1).value) == Recorded(Replica.Fold(Carried, zero, log, i).value) + Records(log[i].batch)
      ensures 0 < Records(log[i].batch)
    {
      var db, b := Replica.Fold(Carried, zero, log, i).value, log[i].batch;
      MintedIsUnseen(zero, log, i);
      CarriedAsPlanned(db, b);
      JournalGrows(db, b);
    }
  }

  /** So a snapshot of a store, of which the commits were minted for their batches,
      serves if and only if no command had gone by unapplied. */
  lemma StoreSnapshotServesIff(zero: Db, log: seq<Entry<Batch>>, n: Node<Db>)
    requires Minted(zero, log) && Good(Carried, zero, log, n) && n.m.applied > 0 && n.pos > 0 && Replica.Fold(Carried, zero, log, |log|).Some?
    ensures Some(CaughtUp(Carried, StartedFrom(zero, SnapshotOf(n)), log, |log|).m.content) == Replica.Fold(Carried, zero, log, |log|) <==>
            Idle(log, n.m.applied, n.pos)
  {
    CarriedIsBounded();
    MintedIsWeighty(zero, log);
    SnapshotServesIff(Carried, zero, log, n, Recorded, Records);
  }
}
