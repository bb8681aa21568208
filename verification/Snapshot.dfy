/** A log snapshot as a stream: a header, one line per item, and a mark that says
    how many there were. */
module Snapshot {
  import opened Dns
  import opened Store
  import opened Codec

  // ------------------------------------------------------------------ the items

  datatype Replicated =
    | SettingItem(key: string, value: string)
    | ZoneItem(zone: Zone)
    | RecordItem(record: Record)
    | CommitItem(commit: Commit)

  datatype Kind = SettingKind | ZoneKind | RecordKind | HistoryKind | OtherKind(name: string)

  datatype WireSetting = WireSetting(key: string, value: string)

  /** An item on the wire: a kind, and whatever it carries. */
  datatype WireItem = WireItem(kind: Kind, setting: Option<WireSetting>, zone: Option<WireZoneValue>,
                               record: Option<WireRecord>, commit: Option<WireCommit>)

  datatype Writer = StoreWriter | WitnessWriter | OtherWriter(name: string)

  datatype Header = Header(index: nat, writer: Writer)

  datatype Line =
    | HeaderLine(format: string, version: nat, index: nat, writer: Writer)
    | ItemLine(item: WireItem)
    | EndLine(count: nat)

  const FORMAT := "wegweiser-log-snapshot"
  const SNAPSHOT_VERSION := 1

  predicate KnownWriter(w: Writer)
  {
    w == StoreWriter || w == WitnessWriter
  }

  /** What the store may hold, and so what a snapshot may carry. */
  predicate ValidItem(f: Forms, json: string -> bool, item: Replicated)
  {
    match item
    case SettingItem(key, value) => key != "" && json(value)
    case ZoneItem(z) => ValidZone(z) && z.prefix == f.prefixOf(z.name)
    case RecordItem(r) => ValidRecord(r)
    case CommitItem(c) => ValidCommit(c)
  }

  function ToItem(f: Forms, item: Replicated): WireItem
  {
    match item
    case SettingItem(key, value) => WireItem(SettingKind, Some(WireSetting(key, value)), None, None, None)
    case ZoneItem(z) => WireItem(ZoneKind, None, Some(ToWireValue(z)), None, None)
    case RecordItem(r) => WireItem(RecordKind, None, None, Some(ToWire(f, r)), None)
    case CommitItem(c) => WireItem(HistoryKind, None, None, None, Some(ToWireCommit(f, c)))
  }

  function Carried(w: WireItem): nat
  {
    (if w.setting.Some? then 1 else 0) + (if w.zone.Some? then 1 else 0) +
    (if w.record.Some? then 1 else 0) + (if w.commit.Some? then 1 else 0)
  }

  /** An item carries one thing, of the kind it says; a kind this build does not
      know is refused rather than skipped. */
  function FromItem(f: Forms, json: string -> bool, w: WireItem): Option<Replicated>
  {
    if Carried(w) != 1 then None
    else if w.kind == SettingKind && w.setting.Some? then
      if w.setting.value.key != "" && json(w.setting.value.value) then Some(SettingItem(w.setting.value.key, w.setting.value.value)) else None
    else if w.kind == ZoneKind && w.zone.Some? then
      match FromWireValue(f, w.zone.value) { case None => None case Some(z) => Some(ZoneItem(z)) }
    else if w.kind == RecordKind && w.record.Some? then
      match FromWire(f, w.record.value) { case None => None case Some(r) => Some(RecordItem(r)) }
    else if w.kind == HistoryKind && w.commit.Some? then
      match FromWireCommit(f, w.commit.value) { case None => None case Some(c) => Some(CommitItem(c)) }
    else None
  }

  lemma ItemBack(f: Forms, json: string -> bool, item: Replicated)
    requires f.Lawful() && ValidItem(f, json, item)
    ensures FromItem(f, json, ToItem(f, item)) == Some(item)
  {
    match item
    case RecordItem(r) => RecordBack(f, r);
    case CommitItem(c) => CommitBack(f, c);
    case _ =>
  }

  // -------------------------------------------------------------------- writing

  function ItemLines(f: Forms, items: seq<Replicated>): seq<Line>
  {
    seq(|items|, i requires 0 <= i < |items| => ItemLine(ToItem(f, items[i])))
  }

  function Written(f: Forms, h: Header, items: seq<Replicated>): seq<Line>
  {
    [HeaderLine(FORMAT, SNAPSHOT_VERSION, h.index, h.writer)] + ItemLines(f, items) + [EndLine(|items|)]
  }

  method WriteSnapshot(f: Forms, json: string -> bool, h: Header, items: seq<Replicated>) returns (out: Result<seq<Line>>)
    ensures out.Ok? <==> KnownWriter(h.writer) && forall i :: 0 <= i < |items| ==> ValidItem(f, json, items[i])
    ensures out.Ok? ==> out.value == Written(f, h, items)
  {
    if h.writer != StoreWriter && h.writer != WitnessWriter { return Err(Invalid); }
    var lines := [HeaderLine(FORMAT, SNAPSHOT_VERSION, h.index, h.writer)];
    var count := 0;
    for i := 0 to |items|
      invariant count == i && forall j :: 0 <= j < i ==> ValidItem(f, json, items[j])
      invariant lines == [HeaderLine(FORMAT, SNAPSHOT_VERSION, h.index, h.writer)] + ItemLines(f, items[..i])
    {
      if !ValidItem(f, json, items[i]) { return Err(Invalid); }
      lines := lines + [ItemLine(ToItem(f, items[i]))];
      count := count + 1;
    }
    assert items[..|items|] == items;
    return Ok(lines + [EndLine(count)]);
  }

  // -------------------------------------------------------------------- reading

  /** What reading yields: the items in order, and whether it ended without an
      error. */
  datatype Reading = Reading(items: seq<Replicated>, ok: bool)

  /** Reads on from a line, having yielded these. */
  function ReadFrom(f: Forms, json: string -> bool, lines: seq<Line>, i: nat, seen: seq<Replicated>): Reading
    requires i <= |lines|
    decreases |lines| - i
  {
    if i == |lines| then Reading(seen, false)
    else
      match lines[i]
      case EndLine(count) => Reading(seen, count == |seen| && i + 1 == |lines|)
      case HeaderLine(_, _, _, _) => Reading(seen, false)
      case ItemLine(w) =>
        match FromItem(f, json, w)
        case None => Reading(seen, false)
        case Some(item) => ReadFrom(f, json, lines, i + 1, seen + [item])
  }

  function ReadHeader(lines: seq<Line>): Option<Header>
  {
    if lines == [] || !lines[0].HeaderLine? then None
    else if lines[0].format != FORMAT || lines[0].version != SNAPSHOT_VERSION || !KnownWriter(lines[0].writer) then None
    else Some(Header(lines[0].index, lines[0].writer))
  }

  /** The whole of it: nothing at all without a header that can be read. */
  function Read(f: Forms, json: string -> bool, lines: seq<Line>): (Option<Header>, Reading)
  {
    match ReadHeader(lines)
    case None => (None, Reading([], false))
    case Some(h) => (Some(h), ReadFrom(f, json, lines, 1, []))
  }

  method ReadSnapshot(f: Forms, json: string -> bool, lines: seq<Line>) returns (h: Option<Header>, r: Reading)
    ensures (h, r) == Read(f, json, lines)
  {
    if lines == [] || !lines[0].HeaderLine? { return None, Reading([], false); }
    if lines[0].format != FORMAT { return None, Reading([], false); }
    if lines[0].version != SNAPSHOT_VERSION { return None, Reading([], false); }
    if !KnownWriter(lines[0].writer) { return None, Reading([], false); }
    h := Some(Header(lines[0].index, lines[0].writer));
    var seen: seq<Replicated> := [];
    var i := 1;
    while i < |lines|
      invariant 1 <= i <= |lines|
      invariant ReadFrom(f, json, lines, 1, []) == ReadFrom(f, json, lines, i, seen)
    {
      match lines[i] {
        case EndLine(count) => return h, Reading(seen, count == |seen| && i + 1 == |lines|);
        case HeaderLine(_, _, _, _) => return h, Reading(seen, false);
        case ItemLine(w) =>
          var item := FromItem(f, json, w);
          if item.None? { return h, Reading(seen, false); }
          seen, i := seen + [item.value], i + 1;
      }
    }
    return h, Reading(seen, false);
  }

  // ------------------------------------------------------------------ exactness

  /** From a line on: items that can be read, then the end mark, then nothing, the
      mark counting these and those yielded before. */
  ghost predicate Complete(f: Forms, json: string -> bool, lines: seq<Line>, i: nat, before: nat)
    requires i <= |lines|
  {
    && i < |lines| && lines[|lines| - 1] == EndLine(before + |lines| - 1 - i)
    && forall j :: i <= j < |lines| - 1 ==> lines[j].ItemLine? && FromItem(f, json, lines[j].item).Some?
  }

  lemma {:induction false} ReadsIff(f: Forms, json: string -> bool, lines: seq<Line>, i: nat, seen: seq<Replicated>)
    requires i <= |lines|
    ensures ReadFrom(f, json, lines, i, seen).ok <==> Complete(f, json, lines, i, |seen|)
    ensures ReadFrom(f, json, lines, i, seen).ok ==> |ReadFrom(f, json, lines, i, seen).items| == |seen| + |lines| - 1 - i
    ensures ReadFrom(f, json, lines, i, seen).ok ==> forall j :: i <= j < |lines| - 1 ==>
              lines[j].ItemLine? && FromItem(f, json, lines[j].item) == Some(ReadFrom(f, json, lines, i, seen).items[|seen| + j - i])
    ensures ReadFrom(f, json, lines, i, seen).ok ==> seen <= ReadFrom(f, json, lines, i, seen).items
    decreases |lines| - i
  {
    if i < |lines| && lines[i].ItemLine? && FromItem(f, json, lines[i].item).Some? {
      var item := FromItem(f, json, lines[i].item).value;
      ReadsIff(f, json, lines, i + 1, seen + [item]);
    }
  }

  /** Reading ends without an error if and only if the stream is a good header,
      readable items and an end mark that counts them, with nothing after. */
  lemma ReadOkIff(f: Forms, json: string -> bool, lines: seq<Line>)
    ensures Read(f, json, lines).1.ok <==> ReadHeader(lines).Some? && Complete(f, json, lines, 1, 0)
  {
    if ReadHeader(lines).Some? {
      ReadsIff(f, json, lines, 1, []);
    }
  }

  /** Reading what was written yields its header and exactly its items. */
  lemma ReadWritten(f: Forms, json: string -> bool, h: Header, items: seq<Replicated>)
    requires f.Lawful() && KnownWriter(h.writer) && forall i :: 0 <= i < |items| ==> ValidItem(f, json, items[i])
    ensures Read(f, json, Written(f, h, items)) == (Some(h), Reading(items, true))
  {
    var lines := Written(f, h, items);
    forall j | 1 <= j < |lines| - 1
      ensures lines[j].ItemLine? && FromItem(f, json, lines[j].item) == Some(items[j - 1])
    {
      ItemBack(f, json, items[j - 1]);
    }
    ReadsIff(f, json, lines, 1, []);
    var r := ReadFrom(f, json, lines, 1, []);
    assert r.ok;
    forall k | 0 <= k < |items|
      ensures r.items[k] == items[k]
    {
      assert FromItem(f, json, lines[k + 1].item) == Some(r.items[0 + (k + 1) - 1]);
    }
    assert r.items == items;
    assert ReadHeader(lines) == Some(h);
  }

  /** Cut short anywhere, it does not read. */
  lemma PrefixFails(f: Forms, json: string -> bool, h: Header, items: seq<Replicated>, n: nat)
    requires n < |Written(f, h, items)|
    ensures !Read(f, json, Written(f, h, items)[..n]).1.ok
  {
    var lines := Written(f, h, items);
    ReadOkIff(f, json, lines[..n]);
    assert n > 0 ==> lines[..n][n - 1] == lines[n - 1] && !lines[n - 1].EndLine?;
  }

  /** Nor with the wrong number in its end mark. */
  lemma WrongCountFails(f: Forms, json: string -> bool, h: Header, items: seq<Replicated>, count: nat)
    requires count != |items|
    ensures !Read(f, json, Written(f, h, items)[|items| + 1 := EndLine(count)]).1.ok
  {
    ReadOkIff(f, json, Written(f, h, items)[|items| + 1 := EndLine(count)]);
  }

  /** Nor with anything after its end. */
  lemma TrailingFails(f: Forms, json: string -> bool, h: Header, items: seq<Replicated>, more: seq<Line>)
    requires more != []
    ensures !Read(f, json, Written(f, h, items) + more).1.ok
  {
    var lines := Written(f, h, items) + more;
    ReadOkIff(f, json, lines);
    assert lines[|items| + 1] == EndLine(|items|);
  }
}
