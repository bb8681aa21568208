/** Carrying a batch out statement by statement, against the store's own state. */
module Transaction {
  import opened Dns
  import opened Changes
  import opened Ordering
  import opened Store
  import opened Write
  import opened Batch

  /** A statement that went through left the store as it says; one that did not
      says why. */
  ghost predicate Ended(r: Result<Db>, now: Db, err: Option<Refusal>)
  {
    match r
    case Ok(next) => err == None && now == next
    case Err(why) => err == Some(why)
  }

  class Tx {
    var db: Db

    constructor (from: Db)
      ensures db == from
    {
      db := from;
    }

    /** Takes a statement's outcome over, or reports its refusal. */
    method Execute(r: Result<Db>) returns (err: Option<Refusal>)
      modifies this
      ensures Ended(r, db, err)
      ensures r.Err? ==> db == old(db)
    {
      match r
      case Ok(next) => db := next; err := None;
      case Err(why) => err := Some(why);
    }

    method DeleteEach(rs: seq<Record>) returns (err: Option<Refusal>)
      modifies this
      ensures Ended(DeleteAll(old(db), rs), db, err)
    {
      for i := 0 to |rs|
        invariant DeleteAll(old(db), rs) == DeleteAll(db, rs[i..])
      {
        err := Execute(DeleteRecord(db, rs[i].id));
        if err.Some? { return; }
        assert rs[i..][1..] == rs[i + 1..];
      }
      err := None;
    }

    method UpdateEach(us: seq<Update>) returns (err: Option<Refusal>)
      modifies this
      ensures Ended(UpdateAll(old(db), us), db, err)
    {
      for i := 0 to |us|
        invariant UpdateAll(old(db), us) == UpdateAll(db, us[i..])
      {
        err := Execute(UpdateRecord(db, us[i].after));
        if err.Some? { return; }
        assert us[i..][1..] == us[i + 1..];
      }
      err := None;
    }

    method InsertEach(rs: seq<Record>) returns (err: Option<Refusal>)
      modifies this
      ensures Ended(InsertAll(old(db), rs), db, err)
    {
      for i := 0 to |rs|
        invariant InsertAll(old(db), rs) == InsertAll(db, rs[i..])
      {
        err := Execute(InsertRecord(db, rs[i]));
        if err.Some? { return; }
        assert rs[i..][1..] == rs[i + 1..];
      }
      err := None;
    }

    /** Removals across all zones, then updates, then additions. */
    method Carry(q: Queue) returns (err: Option<Refusal>)
      modifies this
      ensures Ended(WriteQueue(old(db), q), db, err)
    {
      var dels, ups, ins := Gather(q);
      dels := Sort(dels, true);
      err := DeleteEach(dels);
      if err.Some? { return; }
      err := UpdateEach(ups);
      if err.Some? { return; }
      ins := Sort(ins, false);
      err := InsertEach(ins);
    }

    method Write(b: Batch) returns (err: Option<Refusal>)
      modifies this
      ensures Ended(WriteBatch(old(db), b), db, err)
    {
      for i := 0 to |b.ops|
        invariant WriteOps(old(db), b.ops) == WriteOps(db, b.ops[i..])
      {
        match b.ops[i] {
          case CreateOp(z) => err := Execute(CreateZone(db, z)); if err.Some? { return; }
          case UpdateOp(z) => err := Execute(UpdateZone(db, z)); if err.Some? { return; }
          case DeleteOp(_) =>
        }
        assert b.ops[i..][1..] == b.ops[i + 1..];
      }
      err := Carry(b.queue);
      if err.Some? { return; }
      err := RecordCommits(b);
      if err.Some? { return; }
      err := Drop(b.ops);
    }

    /** A commit for every zone changed, its serial moved along with it. */
    method RecordCommits(b: Batch) returns (err: Option<Refusal>)
      modifies this
      ensures Ended(WriteCommits(old(db), b, b.commits), db, err)
    {
      for i := 0 to |b.commits|
        invariant WriteCommits(old(db), b, b.commits) == WriteCommits(db, b, b.commits[i..])
      {
        var commit := b.commits[i];
        var changed, op := commit.zone in b.queue.byZone, b.HasOp(commit.zone);
        if !changed && !op { return Some(Invalid); }
        assert b.commits[i..][1..] == b.commits[i + 1..];
        ghost var before := db;
        if changed && !op {
          err := Execute(WriteSoa(db, b.queue.byZone[commit.zone], commit));
          if err.Some? { return; }
        }
        err := Execute(AppendCommit(db, commit));
        if err.Some? { return; }
        assert WriteCommit(before, b, commit) == Ok(db);
      }
      err := None;
    }

    method Drop(ops: seq<ZoneOp>) returns (err: Option<Refusal>)
      modifies this
      ensures Ended(WriteDrops(old(db), ops), db, err)
    {
      for i := 0 to |ops|
        invariant WriteDrops(old(db), ops) == WriteDrops(db, ops[i..])
      {
        assert ops[i..][1..] == ops[i + 1..];
        if ops[i].DeleteOp? {
          err := Execute(DeleteZone(db, ops[i].gone));
          if err.Some? { return; }
        }
      }
      err := None;
    }
  }

  method Gather(q: Queue) returns (dels: seq<Record>, ups: seq<Update>, ins: seq<Record>)
    ensures dels == Deletes(q, |q.order|) && ups == Updates(q, |q.order|) && ins == Inserts(q, |q.order|)
  {
    dels, ups, ins := [], [], [];
    for n := 0 to |q.order|
      invariant dels == Deletes(q, n) && ups == Updates(q, n) && ins == Inserts(q, n)
    {
      var c := q.For(q.order[n]);
      dels, ups, ins := dels + c.deletes, ups + c.updates, ins + c.inserts;
    }
  }
}
