/** A batch as it travels, and turned back into one. */
module Codec {
  import opened Dns
  import opened Changes
  import opened Store
  import opened Write
  import opened Batch

  /** Record data as text and back, by type; a touched set as a stable list; and
      the network a reverse zone's name stands for. */
  datatype Forms = Forms(
    render: (RRType, RData) -> string,
    parse: (RRType, string) -> Option<RData>,
    sorted: set<Name> -> seq<Name>,
    prefixOf: Name -> Option<nat>)
  {
    /** Canonical text reads back as the data it was printed from. */
    ghost predicate Lawful()
    {
      && (forall t, d :: parse(t, render(t, d)) == Some(d))
      && (forall s, n :: n in sorted(s) <==> n in s)
    }
  }

  const VERSION := 1

  datatype WireRecord = WireRecord(
    id: RecordId, zone: ZoneId, name: Name, cls: nat, typ: RRType, ttl: nat, text: string,
    managedBy: Option<RecordId>, managedKind: Option<ManagedKind>, comment: string, disabled: bool)

  datatype WireUpdate = WireUpdate(before: WireRecord, after: WireRecord)

  datatype WireZone = WireZone(
    zone: ZoneId, deletes: seq<WireRecord>, updates: seq<WireUpdate>, inserts: seq<WireRecord>,
    touched: seq<Name>, soa: Option<SoaChange>)

  /** The network is left out: it is worked out from the name. */
  datatype WireZoneValue = WireZoneValue(
    id: ZoneId, name: Name, soa: Soa, defaultTtl: nat, autoReverse: Option<bool>, disabled: bool, comment: string)

  datatype OpKind = Creates | Updates | Deletes

  datatype WireOp = WireOp(kind: OpKind, id: ZoneId, zone: Option<WireZoneValue>)

  datatype WireEvent = WireEvent(seqNo: nat, op: Op, name: Name, cls: nat, typ: RRType, ttl: nat, text: string)

  datatype WireCommit = WireCommit(
    id: CommitId, zone: ZoneId, zoneName: Name, serialFrom: Serial, serialTo: Serial,
    kind: CommitKind, source: Source, actor: string, comment: string, revertsTo: Option<Serial>,
    events: seq<WireEvent>)

  datatype Wire = Wire(version: nat, zones: seq<WireZone>, ops: seq<WireOp>, commits: seq<WireCommit>)

  // ------------------------------------------------------------------ encoding

  function ToWire(f: Forms, r: Record): WireRecord
  {
    WireRecord(r.id, r.zone, r.name, r.cls, r.typ, r.ttl, f.render(r.typ, r.data),
               r.managedBy, r.managedKind, r.comment, r.disabled)
  }

  function ToWireRecords(f: Forms, rs: seq<Record>): seq<WireRecord>
  {
    seq(|rs|, i requires 0 <= i < |rs| => ToWire(f, rs[i]))
  }

  function ToWireUpdates(f: Forms, us: seq<Update>): seq<WireUpdate>
  {
    seq(|us|, i requires 0 <= i < |us| => WireUpdate(ToWire(f, us[i].before), ToWire(f, us[i].after)))
  }

  function ToWireZone(f: Forms, z: ZoneId, c: Changes): WireZone
  {
    WireZone(z, ToWireRecords(f, c.deletes), ToWireUpdates(f, c.updates), ToWireRecords(f, c.inserts), f.sorted(c.touched), c.soa)
  }

  /** The first n zones that have anything to write. */
  function ToWireZones(f: Forms, q: Queue, n: nat): seq<WireZone>
    requires n <= |q.order|
  {
    if n == 0 then []
    else
      var c := q.For(q.order[n - 1]);
      ToWireZones(f, q, n - 1) + if c.Empty() then [] else [ToWireZone(f, q.order[n - 1], c)]
  }

  function ToWireOp(op: ZoneOp): WireOp
  {
    match op
    case CreateOp(z) => WireOp(Creates, z.id, Some(ToWireValue(z)))
    case UpdateOp(z) => WireOp(Updates, z.id, Some(ToWireValue(z)))
    case DeleteOp(id) => WireOp(Deletes, id, None)
  }

  function ToWireValue(z: Zone): WireZoneValue
  {
    WireZoneValue(z.id, z.name, z.soa, z.defaultTtl, z.autoReverse, z.disabled, z.comment)
  }

  function ToWireEvent(f: Forms, e: Event): WireEvent
  {
    WireEvent(e.seqNo, e.op, e.name, e.cls, e.typ, e.ttl, f.render(e.typ, e.data))
  }

  function ToWireCommit(f: Forms, c: Commit): WireCommit
  {
    WireCommit(c.id, c.zone, c.zoneName, c.serialFrom, c.serialTo, c.kind, c.source, c.actor, c.comment, c.revertsTo,
               seq(|c.events|, i requires 0 <= i < |c.events| => ToWireEvent(f, c.events[i])))
  }

  function Encode(f: Forms, b: Batch): Wire
  {
    Wire(VERSION, ToWireZones(f, b.queue, |b.queue.order|),
         seq(|b.ops|, i requires 0 <= i < |b.ops| => ToWireOp(b.ops[i])),
         seq(|b.commits|, i requires 0 <= i < |b.commits| => ToWireCommit(f, b.commits[i])))
  }

  method Marshal(f: Forms, b: Batch) returns (w: Wire)
    ensures w == Encode(f, b)
  {
    var zones: seq<WireZone> := [];
    for n := 0 to |b.queue.order|
      invariant zones == ToWireZones(f, b.queue, n)
    {
      var zid := b.queue.order[n];
      var c := b.queue.For(zid);
      if c.Empty() { continue; }
      zones := zones + [ToWireZone(f, zid, c)];
    }
    var ops: seq<WireOp> := [];
    for i := 0 to |b.ops|
      invariant |ops| == i && forall j :: 0 <= j < i ==> ops[j] == ToWireOp(b.ops[j])
    {
      ops := ops + [ToWireOp(b.ops[i])];
    }
    var commits: seq<WireCommit> := [];
    for i := 0 to |b.commits|
      invariant |commits| == i && forall j :: 0 <= j < i ==> commits[j] == ToWireCommit(f, b.commits[j])
    {
      commits := commits + [ToWireCommit(f, b.commits[i])];
    }
    w := Wire(VERSION, zones, ops, commits);
  }

  // ------------------------------------------------------------------ decoding

  /** Parses text, and insists it was canonical already. */
  function FromText(f: Forms, t: RRType, text: string): Option<RData>
  {
    match f.parse(t, text)
    case None => None
    case Some(d) => if f.render(t, d) == text then Some(d) else None
  }

  function FromWire(f: Forms, w: WireRecord): Option<Record>
  {
    match FromText(f, w.typ, w.text)
    case None => None
    case Some(d) =>
      var r := Record(w.id, w.zone, w.name, w.cls, w.typ, w.ttl, d, w.managedBy, w.managedKind, w.comment, w.disabled);
      if ValidRecord(r) then Some(r) else None
  }

  function FromWireRecords(f: Forms, ws: seq<WireRecord>, n: nat): Option<seq<Record>>
    requires n <= |ws|
  {
    if n == 0 then Some([])
    else
      match (FromWireRecords(f, ws, n - 1), FromWire(f, ws[n - 1]))
      case (Some(rs), Some(r)) => Some(rs + [r])
      case _ => None
  }

  function FromWireUpdates(f: Forms, ws: seq<WireUpdate>, n: nat): Option<seq<Update>>
    requires n <= |ws|
  {
    if n == 0 then Some([])
    else
      match (FromWireUpdates(f, ws, n - 1), FromWire(f, ws[n - 1].before), FromWire(f, ws[n - 1].after))
      case (Some(us), Some(b), Some(a)) => Some(us + [Update(b, a)])
      case _ => None
  }

  function FromWireZone(f: Forms, w: WireZone): Option<Changes>
  {
    match (FromWireRecords(f, w.deletes, |w.deletes|), FromWireUpdates(f, w.updates, |w.updates|), FromWireRecords(f, w.inserts, |w.inserts|))
    case (Some(ds), Some(us), Some(ins)) => Some(Changes(ds, us, ins, [], (set n | n in w.touched), w.soa))
    case _ => None
  }

  /** The zones so far; one named twice is refused. No copy of a zone travels. */
  function FromWireZones(f: Forms, ws: seq<WireZone>, n: nat): Option<Queue>
    requires n <= |ws|
  {
    if n == 0 then Some(NO_QUEUE)
    else
      match (FromWireZones(f, ws, n - 1), FromWireZone(f, ws[n - 1]))
      case (Some(q), Some(c)) =>
        if ws[n - 1].zone in q.byZone then None
        else Some(Queue(map[], q.byZone[ws[n - 1].zone := c], q.order + [ws[n - 1].zone]))
      case _ => None
  }

  function FromWireValue(f: Forms, w: WireZoneValue): Option<Zone>
  {
    var z := Zone(w.id, w.name, f.prefixOf(w.name), w.soa, w.defaultTtl, w.autoReverse, w.disabled, w.comment);
    if ValidZone(z) then Some(z) else None
  }

  /** An operation carries the zone it means, and only a deletion does not. */
  function FromWireOp(f: Forms, w: WireOp): Option<ZoneOp>
  {
    if w.zone.None? then if w.kind == Deletes then Some(DeleteOp(w.id)) else None
    else
      match FromWireValue(f, w.zone.value)
      case None => None
      case Some(z) =>
        if w.kind == Deletes || z.id != w.id then None
        else Some(if w.kind == Creates then CreateOp(z) else UpdateOp(z))
  }

  function FromWireOps(f: Forms, ws: seq<WireOp>, n: nat): Option<seq<ZoneOp>>
    requires n <= |ws|
  {
    if n == 0 then Some([])
    else
      match (FromWireOps(f, ws, n - 1), FromWireOp(f, ws[n - 1]))
      case (Some(ops), Some(op)) => Some(ops + [op])
      case _ => None
  }

  function FromWireEvents(f: Forms, ws: seq<WireEvent>, n: nat): Option<seq<Event>>
    requires n <= |ws|
  {
    if n == 0 then Some([])
    else
      match (FromWireEvents(f, ws, n - 1), FromText(f, ws[n - 1].typ, ws[n - 1].text))
      case (Some(es), Some(d)) =>
        var w := ws[n - 1];
        Some(es + [Event(w.seqNo, w.op, w.name, w.cls, w.typ, w.ttl, d)])
      case _ => None
  }

  function FromWireCommit(f: Forms, w: WireCommit): Option<Commit>
  {
    match FromWireEvents(f, w.events, |w.events|)
    case None => None
    case Some(es) =>
      var c := Commit(w.id, w.zone, w.zoneName, w.serialFrom, w.serialTo, w.kind, w.source, w.actor, w.comment, w.revertsTo, es);
      if ValidCommit(c) then Some(c) else None
  }

  function FromWireCommits(f: Forms, ws: seq<WireCommit>, n: nat): Option<seq<Commit>>
    requires n <= |ws|
  {
    if n == 0 then Some([])
    else
      match (FromWireCommits(f, ws, n - 1), FromWireCommit(f, ws[n - 1]))
      case (Some(cs), Some(c)) => Some(cs + [c])
      case _ => None
  }

  function Decode(f: Forms, w: Wire): Option<Batch>
  {
    if w.version != VERSION then None
    else
      match (FromWireZones(f, w.zones, |w.zones|), FromWireOps(f, w.ops, |w.ops|), FromWireCommits(f, w.commits, |w.commits|))
      case (Some(q), Some(ops), Some(cs)) => Some(Batch(ops, q, cs))
      case _ => None
  }

  /** What has been read after the first n zones. */
  ghost predicate ReadSoFar(f: Forms, ws: seq<WireZone>, n: nat, byZone: map<ZoneId, Changes>, order: seq<ZoneId>)
  {
    n <= |ws| && FromWireZones(f, ws, n) == Some(Queue(map[], byZone, order))
  }

  method UnmarshalZones(f: Forms, ws: seq<WireZone>) returns (q: Option<Queue>)
    ensures q == FromWireZones(f, ws, |ws|)
  {
    var byZone: map<ZoneId, Changes> := map[];
    var order: seq<ZoneId> := [];
    for n := 0 to |ws|
      invariant ReadSoFar(f, ws, n, byZone, order)
    {
      var c := FromWireZone(f, ws[n]);
      NextZone(f, ws, n, byZone, order, c);
      if c.None? || ws[n].zone in byZone { return None; }
      byZone, order := byZone[ws[n].zone := c.value], order + [ws[n].zone];
    }
    return Some(Queue(map[], byZone, order));
  }

  lemma NextZone(f: Forms, ws: seq<WireZone>, n: nat, byZone: map<ZoneId, Changes>, order: seq<ZoneId>, c: Option<Changes>)
    requires n < |ws| && ReadSoFar(f, ws, n, byZone, order) && c == FromWireZone(f, ws[n])
    ensures if c.None? || ws[n].zone in byZone then FromWireZones(f, ws, |ws|).None?
            else ReadSoFar(f, ws, n + 1, byZone[ws[n].zone := c.value], order + [ws[n].zone])
  {
    if c.None? || ws[n].zone in byZone {
      assert FromWireZones(f, ws, n + 1).None?;
      RefusedStays(f, ws, n + 1, |ws|);
    }
  }

  /** Once refused, a stream of zones stays refused. */
  lemma {:induction false} RefusedStays(f: Forms, ws: seq<WireZone>, k: nat, n: nat)
    requires k <= n <= |ws| && FromWireZones(f, ws, k).None?
    ensures FromWireZones(f, ws, n).None?
    decreases n
  {
    if k < n { RefusedStays(f, ws, k, n - 1); }
  }

  // ----------------------------------------------------------- what was planned

  /** What planning makes sure of: valid records, zones and commits, a reverse
      zone's network read off its name, and no commit to a zone the batch leaves
      alone. */
  ghost predicate WellFormed(f: Forms, b: Batch)
  {
    && b.queue.Proper()
    && QueueValid(b.queue)
    && (forall i :: 0 <= i < |b.ops| ==> OpValid(f, b.ops[i]))
    && (forall i :: 0 <= i < |b.commits| ==> ValidCommit(b.commits[i]) && Backed(b, b.commits[i].zone))
  }

  ghost predicate QueueValid(q: Queue)
  {
    forall z :: RecordsValid(q.For(z))
  }

  ghost predicate RecordsValid(c: Changes)
  {
    && (forall r :: r in c.deletes ==> ValidRecord(r)) && (forall r :: r in c.inserts ==> ValidRecord(r))
    && (forall u :: u in c.updates ==> ValidRecord(u.before) && ValidRecord(u.after))
  }

  ghost predicate OpValid(f: Forms, op: ZoneOp)
  {
    op.DeleteOp? || (ValidZone(op.zone) && op.zone.prefix == f.prefixOf(op.zone.name))
  }

  ghost predicate Backed(b: Batch, z: ZoneId)
  {
    b.HasOp(z) || (z in b.queue.byZone && !b.queue.byZone[z].Empty())
  }

  // ------------------------------------------------------------- the round trip

  lemma TakeMore<T>(s: seq<T>, n: nat)
    requires 0 < n <= |s|
    ensures s[..n] == s[..n - 1] + [s[n - 1]]
  {
  }

  lemma RecordBack(f: Forms, r: Record)
    requires f.Lawful() && ValidRecord(r)
    ensures FromWire(f, ToWire(f, r)) == Some(r)
  {
  }

  lemma {:induction false} RecordsBack(f: Forms, rs: seq<Record>, n: nat)
    requires f.Lawful() && n <= |rs| && forall r :: r in rs ==> ValidRecord(r)
    ensures FromWireRecords(f, ToWireRecords(f, rs), n) == Some(rs[..n])
  {
    if n > 0 {
      RecordsBack(f, rs, n - 1);
      RecordBack(f, rs[n - 1]);
      TakeMore(rs, n);
    }
  }

  lemma {:induction false} UpdatesBack(f: Forms, us: seq<Update>, n: nat)
    requires f.Lawful() && n <= |us| && forall u :: u in us ==> ValidRecord(u.before) && ValidRecord(u.after)
    ensures FromWireUpdates(f, ToWireUpdates(f, us), n) == Some(us[..n])
  {
    if n > 0 {
      UpdatesBack(f, us, n - 1);
      UpdateBack(f, us, n);
      TakeMore(us, n);
    }
  }

  lemma UpdateBack(f: Forms, us: seq<Update>, n: nat)
    requires f.Lawful() && 0 < n <= |us| && forall u :: u in us ==> ValidRecord(u.before) && ValidRecord(u.after)
    ensures var w := ToWireUpdates(f, us)[n - 1];
            FromWire(f, w.before) == Some(us[n - 1].before) && FromWire(f, w.after) == Some(us[n - 1].after)
  {
    RecordBack(f, us[n - 1].before);
    RecordBack(f, us[n - 1].after);
  }

  /** A zone's changes come back without their claims, which change nothing. */
  lemma ZoneBack(f: Forms, z: ZoneId, c: Changes)
    requires f.Lawful() && RecordsValid(c)
    ensures FromWireZone(f, ToWireZone(f, z, c)) == Some(c.(claims := []))
  {
    RecordsBack(f, c.deletes, |c.deletes|);
    RecordsBack(f, c.inserts, |c.inserts|);
    UpdatesBack(f, c.updates, |c.updates|);
    assert c.deletes[..|c.deletes|] == c.deletes && c.inserts[..|c.inserts|] == c.inserts && c.updates[..|c.updates|] == c.updates;
    assert (set n | n in f.sorted(c.touched)) == c.touched;
  }

  /** The queue less the zones that have nothing to write, less every claim and
      every copy of a zone. */
  function Bare(q: Queue, n: nat): Queue
    requires n <= |q.order|
  {
    if n == 0 then NO_QUEUE
    else
      var rest, z := Bare(q, n - 1), q.order[n - 1];
      if q.For(z).Empty() then rest
      else Queue(map[], rest.byZone[z := q.For(z).(claims := [])], rest.order + [z])
  }

  lemma {:induction false} BareHas(q: Queue, n: nat, z: ZoneId)
    requires q.Proper() && n <= |q.order|
    ensures z in Bare(q, n).byZone <==> z in q.order[..n] && !q.For(z).Empty()
    ensures z in Bare(q, n).byZone ==> Bare(q, n).byZone[z] == q.For(z).(claims := [])
    ensures z in Bare(q, n).order <==> z in Bare(q, n).byZone
  {
    if n > 0 {
      BareHas(q, n - 1, z);
      assert q.order[..n] == q.order[..n - 1] + [q.order[n - 1]];
    }
  }

  lemma {:induction false} ZonesMore(f: Forms, ws: seq<WireZone>, w: WireZone, n: nat)
    requires n <= |ws|
    ensures FromWireZones(f, ws + [w], n) == FromWireZones(f, ws, n)
  {
    if n > 0 { ZonesMore(f, ws, w, n - 1); }
  }

  lemma ZonesStep(f: Forms, ws: seq<WireZone>, w: WireZone, q: Queue, c: Changes)
    requires FromWireZones(f, ws, |ws|) == Some(q) && FromWireZone(f, w) == Some(c) && w.zone !in q.byZone
    ensures FromWireZones(f, ws + [w], |ws + [w]|) == Some(Queue(map[], q.byZone[w.zone := c], q.order + [w.zone]))
  {
    ZonesMore(f, ws, w, |ws|);
    assert (ws + [w])[|ws|] == w;
  }

  ghost predicate Returns(f: Forms, ws: seq<WireZone>, q: Queue)
  {
    FromWireZones(f, ws, |ws|) == Some(q)
  }

  /** A zone with nothing to write adds nothing to either. */
  lemma EmptyZoneBack(f: Forms, q: Queue, n: nat)
    requires 0 < n <= |q.order| && q.For(q.order[n - 1]).Empty()
    ensures ToWireZones(f, q, n) == ToWireZones(f, q, n - 1) && Bare(q, n) == Bare(q, n - 1)
  {
  }

  lemma OneZoneMore(f: Forms, q: Queue, n: nat, z: ZoneId, c: Changes)
    requires 0 < n <= |q.order| && z == q.order[n - 1] && c == q.For(z) && !c.Empty()
    ensures ToWireZones(f, q, n) == ToWireZones(f, q, n - 1) + [ToWireZone(f, z, c)]
    ensures var rest := Bare(q, n - 1);
            Bare(q, n) == Queue(map[], rest.byZone[z := c.(claims := [])], rest.order + [z])
  {
  }

  lemma ZoneBackNext(f: Forms, q: Queue, n: nat, ws: seq<WireZone>, rest: Queue)
    requires f.Lawful() && q.Proper() && 0 < n <= |q.order| && QueueValid(q)
    requires ws == ToWireZones(f, q, n - 1) && rest == Bare(q, n - 1) && Returns(f, ws, rest)
    ensures Returns(f, ToWireZones(f, q, n), Bare(q, n))
  {
    var z := q.order[n - 1];
    if q.For(z).Empty() {
      EmptyZoneBack(f, q, n);
    } else {
      NotYetBare(q, n);
      OneZoneMore(f, q, n, z, q.For(z));
      ZoneFollows(f, z, q.For(z), ws, rest);
    }
  }

  /** What a queue needs to come back. */
  ghost predicate Returnable(f: Forms, q: Queue)
  {
    f.Lawful() && q.Proper() && QueueValid(q)
  }

  lemma {:induction false} ZonesBack(f: Forms, q: Queue, n: nat) returns (ws: seq<WireZone>, rest: Queue)
    requires Returnable(f, q) && n <= |q.order|
    ensures ws == ToWireZones(f, q, n) && rest == Bare(q, n) && Returns(f, ws, rest)
  {
    if n == 0 {
      ws, rest := [], NO_QUEUE;
    } else {
      var before, bare := ZonesBack(f, q, n - 1);
      ZoneBackNext(f, q, n, before, bare);
      ws, rest := ToWireZones(f, q, n), Bare(q, n);
    }
  }

  lemma NotYetBare(q: Queue, n: nat)
    requires q.Proper() && 0 < n <= |q.order|
    ensures q.order[n - 1] !in Bare(q, n - 1).byZone
  {
    BareHas(q, n - 1, q.order[n - 1]);
    assert q.order[n - 1] !in q.order[..n - 1];
  }

  lemma ZoneFollows(f: Forms, z: ZoneId, c: Changes, ws: seq<WireZone>, rest: Queue)
    requires f.Lawful() && RecordsValid(c) && z !in rest.byZone && Returns(f, ws, rest)
    ensures Returns(f, ws + [ToWireZone(f, z, c)], Queue(map[], rest.byZone[z := c.(claims := [])], rest.order + [z]))
  {
    ZoneBack(f, z, c);
    ZonesStep(f, ws, ToWireZone(f, z, c), rest, c.(claims := []));
  }

  lemma {:induction false} OpsBack(f: Forms, ops: seq<ZoneOp>, ws: seq<WireOp>, n: nat)
    requires n <= |ops| == |ws| && forall i :: 0 <= i < |ops| ==> OpValid(f, ops[i]) && ws[i] == ToWireOp(ops[i])
    ensures FromWireOps(f, ws, n) == Some(ops[..n])
  {
    if n > 0 {
      OpsBack(f, ops, ws, n - 1);
      OpBack(f, ops[n - 1]);
      TakeMore(ops, n);
    }
  }

  lemma OpBack(f: Forms, op: ZoneOp)
    requires OpValid(f, op)
    ensures FromWireOp(f, ToWireOp(op)) == Some(op)
  {
    if !op.DeleteOp? {
      assert FromWireValue(f, ToWireValue(op.zone)) == Some(op.zone);
    }
  }

  lemma {:induction false} EventsBack(f: Forms, es: seq<Event>, ws: seq<WireEvent>, n: nat)
    requires f.Lawful() && n <= |es| == |ws| && forall i :: 0 <= i < |es| ==> ws[i] == ToWireEvent(f, es[i])
    ensures FromWireEvents(f, ws, n) == Some(es[..n])
  {
    if n > 0 {
      EventsBack(f, es, ws, n - 1);
      TakeMore(es, n);
    }
  }

  lemma CommitBack(f: Forms, c: Commit)
    requires f.Lawful() && ValidCommit(c)
    ensures FromWireCommit(f, ToWireCommit(f, c)) == Some(c)
  {
    EventsBack(f, c.events, ToWireCommit(f, c).events, |c.events|);
    assert c.events[..|c.events|] == c.events;
  }

  lemma {:induction false} CommitsBack(f: Forms, cs: seq<Commit>, ws: seq<WireCommit>, n: nat)
    requires f.Lawful() && n <= |cs| == |ws| && forall i :: 0 <= i < |cs| ==> ValidCommit(cs[i]) && ws[i] == ToWireCommit(f, cs[i])
    ensures FromWireCommits(f, ws, n) == Some(cs[..n])
  {
    if n > 0 {
      CommitsBack(f, cs, ws, n - 1);
      CommitBack(f, cs[n - 1]);
      TakeMore(cs, n);
    }
  }

  /** What arrives: the same operations and commits, and the bare queue. */
  function Arrived(b: Batch): Batch
  {
    Batch(b.ops, Bare(b.queue, |b.queue.order|), b.commits)
  }

  /** Decoding what was encoded succeeds. */
  lemma DecodeEncode(f: Forms, b: Batch)
    requires f.Lawful() && WellFormed(f, b)
    ensures Decode(f, Encode(f, b)) == Some(Arrived(b))
  {
    var w := Encode(f, b);
    var ws, bare := ZonesBack(f, b.queue, |b.queue.order|);
    OpsBack(f, b.ops, w.ops, |b.ops|);
    CommitsBack(f, b.commits, w.commits, |b.commits|);
    assert b.ops[..|b.ops|] == b.ops && b.commits[..|b.commits|] == b.commits;
  }

  // -------------------------------------------------------- and writes the same

  lemma {:induction false} BareGathers(q: Queue, n: nat)
    requires q.Proper() && n <= |q.order|
    ensures var bare := Bare(q, n);
            && Write.Deletes(bare, |bare.order|) == Write.Deletes(q, n)
            && Write.Updates(bare, |bare.order|) == Write.Updates(q, n)
            && Write.Inserts(bare, |bare.order|) == Write.Inserts(q, n)
  {
    if n > 0 {
      BareGathers(q, n - 1);
      var z, rest := q.order[n - 1], Bare(q, n - 1);
      if !q.For(z).Empty() {
        NotYetBare(q, n);
        BareHas(q, n - 1, z);
        GatherMore(rest, Bare(q, n), z, |rest.order|);
      }
    }
  }

  /** A zone joining at the end leaves what was gathered before it. */
  lemma {:induction false} GatherMore(a: Queue, b: Queue, z: ZoneId, n: nat)
    requires n <= |a.order| && b.order == a.order + [z] && b.byZone.Keys == a.byZone.Keys + {z} && z !in a.byZone
    requires forall y :: y in a.byZone ==> b.byZone[y] == a.byZone[y]
    requires z !in a.order
    ensures Write.Deletes(b, n) == Write.Deletes(a, n) && Write.Updates(b, n) == Write.Updates(a, n) && Write.Inserts(b, n) == Write.Inserts(a, n)
  {
    if n > 0 {
      GatherMore(a, b, z, n - 1);
      assert a.order[n - 1] in a.order;
      assert b.order[n - 1] == a.order[n - 1];
    }
  }

  lemma BareWrites(db: Db, q: Queue)
    requires q.Proper()
    ensures WriteQueue(db, Bare(q, |q.order|)) == WriteQueue(db, q)
  {
    BareGathers(q, |q.order|);
  }

  lemma BareCommit(db: Db, b: Batch, c: Commit)
    requires b.queue.Proper() && Backed(b, c.zone)
    ensures WriteCommit(db, Arrived(b), c) == WriteCommit(db, b, c)
  {
    var q := b.queue;
    BareHas(q, |q.order|, c.zone);
    assert q.order[..|q.order|] == q.order;
    assert c.zone in q.byZone ==> c.zone in q.order;
    assert Arrived(b).HasOp(c.zone) <==> b.HasOp(c.zone);
  }

  lemma {:induction false} BareCommits(db: Db, b: Batch, cs: seq<Commit>)
    requires b.queue.Proper() && forall i :: 0 <= i < |cs| ==> Backed(b, cs[i].zone)
    ensures WriteCommits(db, Arrived(b), cs) == WriteCommits(db, b, cs)
    decreases |cs|
  {
    if cs != [] {
      BareCommit(db, b, cs[0]);
      if WriteCommit(db, b, cs[0]).Ok? {
        BareCommits(WriteCommit(db, b, cs[0]).value, b, cs[1..]);
      }
    }
  }

  /** To every store, what arrives writes what was sent. */
  lemma ArrivedWritesTheSame(f: Forms, db: Db, b: Batch)
    requires WellFormed(f, b)
    ensures WriteBatch(db, Arrived(b)) == WriteBatch(db, b)
  {
    if WriteOps(db, b.ops).Ok? {
      var housed := WriteOps(db, b.ops).value;
      BareWrites(housed, b.queue);
      if WriteQueue(housed, b.queue).Ok? {
        BareCommits(WriteQueue(housed, b.queue).value, b, b.commits);
      }
    }
  }

  // ---------------------------------------------------- and encodes the same

  lemma {:induction false} BareEncodes(f: Forms, q: Queue, n: nat)
    requires q.Proper() && n <= |q.order|
    ensures ToWireZones(f, Bare(q, n), |Bare(q, n).order|) == ToWireZones(f, q, n)
  {
    if n > 0 {
      BareEncodes(f, q, n - 1);
      BareEncodesNext(f, q, n, Bare(q, n - 1), Bare(q, n));
    }
  }

  lemma BareEncodesNext(f: Forms, q: Queue, n: nat, rest: Queue, bare: Queue)
    requires q.Proper() && 0 < n <= |q.order| && rest == Bare(q, n - 1) && bare == Bare(q, n)
    requires ToWireZones(f, rest, |rest.order|) == ToWireZones(f, q, n - 1)
    ensures ToWireZones(f, bare, |bare.order|) == ToWireZones(f, q, n)
  {
    var z := q.order[n - 1];
    if q.For(z).Empty() {
      EmptyZoneBack(f, q, n);
    } else {
      NotYetBare(q, n);
      BareHas(q, n - 1, z);
      OneZoneMore(f, q, n, z, q.For(z));
      EncodeMore(f, rest, bare, z, |rest.order|);
    }
  }

  lemma {:induction false} EncodeMore(f: Forms, a: Queue, b: Queue, z: ZoneId, n: nat)
    requires n <= |a.order| && b.order == a.order + [z] && b.byZone.Keys == a.byZone.Keys + {z} && z !in a.byZone
    requires forall y :: y in a.byZone ==> b.byZone[y] == a.byZone[y]
    requires z !in a.order
    ensures ToWireZones(f, b, n) == ToWireZones(f, a, n)
  {
    if n > 0 {
      EncodeMore(f, a, b, z, n - 1);
      assert a.order[n - 1] in a.order;
      assert b.order[n - 1] == a.order[n - 1];
    }
  }

  /** Encoding what arrived gives the same wire value again. */
  lemma EncodeAgain(f: Forms, b: Batch)
    requires WellFormed(f, b)
    ensures Encode(f, Arrived(b)) == Encode(f, b)
  {
    BareEncodes(f, b.queue, |b.queue.order|);
  }

  // -------------------------------------------------- what is planned qualifies

  lemma {:induction false} PlannedBacked(p: Intent, q: Queue, n: nat, b: Batch)
    requires q.Proper() && n <= |q.order| && b.queue == q
    ensures forall i :: 0 <= i < |Planned(p, q, n)| ==> Backed(b, Planned(p, q, n)[i].zone)
  {
    if n > 0 {
      PlannedBacked(p, q, n - 1, b);
      var front := Planned(p, q, n - 1);
      forall i | 0 <= i < |Planned(p, q, n)|
        ensures Backed(b, Planned(p, q, n)[i].zone)
      {
        if i < |front| {
          assert Planned(p, q, n)[i] == front[i];
        }
      }
    }
  }
}
