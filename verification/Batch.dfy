/** A batch: what one change comes to, and carrying it out in one transaction. */
module Batch {
  import opened Dns
  import opened Changes
  import opened Store
  import opened Write

  /** A change to a zone itself. */
  datatype ZoneOp = CreateOp(zone: Zone) | UpdateOp(zone: Zone) | DeleteOp(gone: ZoneId)
  {
    function Id(): ZoneId
    {
      if DeleteOp? then gone else zone.id
    }
  }

  datatype Batch = Batch(ops: seq<ZoneOp>, queue: Queue, commits: seq<Commit>)
  {
    predicate HasOp(z: ZoneId)
    {
      exists i :: 0 <= i < |ops| && ops[i].Id() == z
    }

    predicate Empty()
    {
      commits == []
    }
  }

  // --------------------------------------------------------------- planning

  datatype Meta = Meta(source: Source, actor: string, comment: string)

  /** What a batch is planned for. The note is the comment the server leaves on
      what it does elsewhere, and identifiers come from a counter no earlier
      commit has used. */
  datatype Intent = Intent(primary: ZoneId, note: string, kind: CommitKind,
                           revertsTo: Option<Serial>, meta: Meta, followed: bool, mint: CommitId)

  function SoaEvent(op: Op, name: Name, soa: Soa): Event
  {
    Event(0, op, name, CLASS_IN, SOA, soa.ttl,
          SoaData(soa.ns, soa.mbox, soa.serial, soa.refresh, soa.retry, soa.expire, soa.minimum))
  }

  /** The start of authority a zone ends a commit with. */
  function RestoredSoa(change: SoaChange, to: Serial): Soa
  {
    change.after.(serial := to)
  }

  /** A zone the person did not name is changed by the server on their behalf. */
  function MetaFor(p: Intent, z: ZoneId): Meta
  {
    if z != p.primary && p.followed then
      Meta(FromSystem, p.meta.actor, p.note)
    else p.meta
  }

  function KindFor(p: Intent, z: ZoneId): CommitKind
  {
    if z != p.primary && p.followed then Edit else p.kind
  }

  predicate Creates(p: Intent, z: ZoneId)
  {
    z == p.primary && p.kind == ZoneCreate
  }

  function CommitFor(p: Intent, z: Zone, c: Changes, id: CommitId): Commit
  {
    var meta := MetaFor(p, z.id);
    var from, to := if Creates(p, z.id) then 0 else z.soa.serial, if Creates(p, z.id) then z.soa.serial else Next(z.soa.serial);
    Commit(id, z.id, z.name, from, to, KindFor(p, z.id), meta.source, meta.actor, meta.comment,
           if z.id == p.primary then p.revertsTo else None,
           EventsFor(p, z, c, to))
  }

  /** The start of authority leads a new zone's events; a change to one leads
      each half of the commit that carries it. */
  function EventsFor(p: Intent, z: Zone, c: Changes, to: Serial): seq<Event>
  {
    if Creates(p, z.id) then Number([SoaEvent(Add, z.name, z.soa)] + EventsOf(c))
    else if c.soa.Some? then
      FoldSoa(EventsOf(c), SoaEvent(Del, z.name, c.soa.value.before), SoaEvent(Add, z.name, RestoredSoa(c.soa.value, to)))
    else EventsOf(c)
  }

  /** The commit of one zone, if it has anything to record. */
  function PlannedAt(p: Intent, q: Queue, i: nat): seq<Commit>
    requires q.Proper() && i < |q.order|
  {
    var z := q.order[i];
    if q.byZone[z].Empty() then [] else [CommitFor(p, q.zones[z], q.byZone[z], p.mint + i)]
  }

  /** One commit for each of the first n zones that has anything to record. */
  function Planned(p: Intent, q: Queue, n: nat): seq<Commit>
    requires q.Proper() && n <= |q.order|
  {
    if n == 0 then [] else Planned(p, q, n - 1) + PlannedAt(p, q, n - 1)
  }

  method Plan(p: Intent, q: Queue) returns (commits: seq<Commit>)
    requires q.Proper()
    ensures commits == Planned(p, q, |q.order|)
  {
    commits := [];
    for n := 0 to |q.order|
      invariant commits == Planned(p, q, n)
    {
      var own := PlanAt(p, q, n);
      commits := commits + own;
    }
  }

  method PlanAt(p: Intent, q: Queue, n: nat) returns (own: seq<Commit>)
    requires q.Proper() && n < |q.order|
    ensures own == PlannedAt(p, q, n)
  {
    var z := q.order[n];
    if q.byZone[z].Empty() { return []; }
    var commit := PlanZone(p, q.zones[z], q.byZone[z], p.mint + n);
    return [commit];
  }

  method PlanZone(p: Intent, z: Zone, c: Changes, id: CommitId) returns (commit: Commit)
    ensures commit == CommitFor(p, z, c, id)
  {
    var events := RenderEvents(c);
    var meta, kind := p.meta, p.kind;
    if z.id != p.primary && p.followed {
      meta := Meta(FromSystem, p.meta.actor, p.note);
      kind := Edit;
    }
    var from, to := z.soa.serial, Next(z.soa.serial);
    if z.id == p.primary && p.kind == ZoneCreate {
      from, to := 0, z.soa.serial;
      events := Number([SoaEvent(Add, z.name, z.soa)] + events);
    } else if c.soa.Some? {
      events := Fold(events, SoaEvent(Del, z.name, c.soa.value.before),
                     SoaEvent(Add, z.name, RestoredSoa(c.soa.value, to)));
    }
    commit := Commit(id, z.id, z.name, from, to, kind, meta.source, meta.actor, meta.comment,
                     if z.id == p.primary then p.revertsTo else None, events);
  }

  method Fold(es: seq<Event>, was: Event, now: Event) returns (out: seq<Event>)
    ensures out == FoldSoa(es, was, now)
  {
    var adds := 0;
    while adds < |es| && es[adds].op != Add
      invariant 0 <= adds <= |es| && forall j :: 0 <= j < adds ==> es[j].op != Add
    {
      adds := adds + 1;
    }
    assert FirstAdd(es) == adds by {
      var i := FirstAdd(es);
      assert i < |es| ==> es[i].op == Add;
    }
    var events := [was] + es[..adds] + [now] + es[adds..];
    out := [];
    for i := 0 to |events|
      invariant |out| == i && forall j :: 0 <= j < i ==> out[j] == events[j].(seqNo := j)
    {
      out := out + [events[i].(seqNo := i)];
    }
  }

  // ---------------------------------------------------------- carrying out

  function WriteOps(db: Db, ops: seq<ZoneOp>): Result<Db>
    decreases |ops|
  {
    if ops == [] then Ok(db)
    else
      match (match ops[0] case CreateOp(z) => CreateZone(db, z) case UpdateOp(z) => UpdateZone(db, z) case DeleteOp(_) => Ok(db))
      case Err(why) => Err(why)
      case Ok(next) => WriteOps(next, ops[1..])
  }

  function WriteDrops(db: Db, ops: seq<ZoneOp>): Result<Db>
    decreases |ops|
  {
    if ops == [] then Ok(db)
    else
      match (if ops[0].DeleteOp? then DeleteZone(db, ops[0].gone) else Ok(db))
      case Err(why) => Err(why)
      case Ok(next) => WriteDrops(next, ops[1..])
  }

  /** Advances the serial, restoring the start of authority where the change
      carries one. */
  function WriteSoa(db: Db, c: Changes, commit: Commit): Result<Db>
  {
    if commit.zone !in db.zones then Err(NotFound)
    else if c.soa.None? then SetZoneSerial(db, commit.zone, commit.serialTo)
    else UpdateZone(db, db.zones[commit.zone].(soa := RestoredSoa(c.soa.value, commit.serialTo)))
  }

  function WriteCommit(db: Db, b: Batch, commit: Commit): Result<Db>
  {
    var changed := commit.zone in b.queue.byZone;
    if !changed && !b.HasOp(commit.zone) then Err(Invalid)
    else
      match (if changed && !b.HasOp(commit.zone) then WriteSoa(db, b.queue.byZone[commit.zone], commit) else Ok(db))
      case Err(why) => Err(why)
      case Ok(next) => AppendCommit(next, commit)
  }

  function WriteCommits(db: Db, b: Batch, cs: seq<Commit>): Result<Db>
    decreases |cs|
  {
    if cs == [] then Ok(db)
    else
      match WriteCommit(db, b, cs[0])
      case Err(why) => Err(why)
      case Ok(next) => WriteCommits(next, b, cs[1..])
  }

  function WriteBatch(db: Db, b: Batch): Result<Db>
  {
    match WriteOps(db, b.ops)
    case Err(why) => Err(why)
    case Ok(housed) =>
      match WriteQueue(housed, b.queue)
      case Err(why) => Err(why)
      case Ok(carried) =>
        match WriteCommits(carried, b, b.commits)
        case Err(why) => Err(why)
        case Ok(recorded) => WriteDrops(recorded, b.ops)
  }
}
