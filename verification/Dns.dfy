/** The values the write path works on: names, serials, records, zones, journal
    events and commits. */
module Dns {

  datatype Option<+T> = None | Some(value: T)

  /** What an operation that can be refused returns. */
  datatype Result<+T> = Ok(value: T) | Err(reason: Refusal)

  datatype Refusal = NotFound | Conflict | Invalid

  // ---------------------------------------------------------------- names

  /** A domain name as its labels, leftmost first. The root has none. */
  type Name = seq<string>

  /** n lies at or below p. */
  predicate IsSubDomainOf(n: Name, p: Name)
  {
    |p| <= |n| && n[|n| - |p|..] == p
  }

  // -------------------------------------------------------------- serials

  const SERIAL_SPACE := 0x1_0000_0000
  const SERIAL_HALF := 0x8000_0000

  /** A zone serial, with the arithmetic of RFC 1982. */
  type Serial = s: nat | s < SERIAL_SPACE

  function Next(s: Serial): Serial
  {
    (s + 1) % SERIAL_SPACE
  }

  /** The unsigned 32-bit difference o - s. */
  function Distance(s: Serial, o: Serial): Serial
  {
    (o - s + SERIAL_SPACE) % SERIAL_SPACE
  }

  predicate Comparable(s: Serial, o: Serial)
  {
    Distance(s, o) != SERIAL_HALF
  }

  /** s is older than o, by section 3.2 of RFC 1982. */
  predicate Before(s: Serial, o: Serial)
  {
    s != o && (Distance(s, o) < SERIAL_HALF || (Distance(s, o) == SERIAL_HALF && s < o))
  }

  // -------------------------------------------------------------- records

  /** Identifiers are minted once and only ever compared. */
  type RecordId = nat
  type ZoneId = nat
  type CommitId = nat

  datatype RRType = A | AAAA | NS | CNAME | PTR | SOA | OtherType(code: nat)

  type Address = nat

  /** Record data in canonical form, so that equal data is equal text. */
  datatype RData =
    | AddressData(addr: Address)
    | NameData(target: Name)
    | SoaData(ns: Name, mbox: Name, serial: Serial, refresh: nat, retry: nat, expire: nat, minimum: nat)
    | TextData(text: string)

  datatype ManagedKind = ManagedPtr | ManagedCname

  datatype Record = Record(
    id: RecordId, zone: ZoneId,
    name: Name, cls: nat, typ: RRType, ttl: nat, data: RData,
    managedBy: Option<RecordId>, managedKind: Option<ManagedKind>,
    comment: string, disabled: bool)

  const CLASS_IN := 1

  /** The address of an A or AAAA record. */
  function AddressOf(r: Record): Option<Address>
  {
    if (r.typ == A || r.typ == AAAA) && r.data.AddressData? then Some(r.data.addr) else None
  }

  /** Everything sharing a name, class and type is one RRset. */
  datatype RRsetKey = RRsetKey(name: Name, cls: nat, typ: RRType)

  function SetKey(r: Record): RRsetKey
  {
    RRsetKey(r.name, r.cls, r.typ)
  }

  /** What makes a resource record that record: its owner, class, type and data.
      The TTL is not part of it. */
  datatype Key = Key(name: Name, cls: nat, typ: RRType, data: RData)

  function KeyOf(r: Record): Key
  {
    Key(r.name, r.cls, r.typ, r.data)
  }

  // ---------------------------------------------------------------- zones

  datatype Soa = Soa(ns: Name, mbox: Name, serial: Serial,
                     refresh: nat, retry: nat, expire: nat, minimum: nat, ttl: nat)

  datatype Zone = Zone(id: ZoneId, name: Name, prefix: Option<nat>, soa: Soa, defaultTtl: nat,
                       autoReverse: Option<bool>, disabled: bool, comment: string)

  predicate Contains(z: Zone, n: Name)
  {
    IsSubDomainOf(n, z.name)
  }

  /** Two starts of authority that differ in nothing but the serial. */
  predicate SameSoa(a: Soa, b: Soa)
  {
    a.(serial := 0) == b.(serial := 0)
  }

  // -------------------------------------------------------------- journal

  datatype Op = Del | Add

  datatype Event = Event(seqNo: nat, op: Op, name: Name, cls: nat, typ: RRType, ttl: nat, data: RData)

  datatype CommitKind = ZoneCreate | ZoneUpdate | ZoneDelete | Edit | Import | Rollback

  datatype Source = FromApi | FromCli | FromImport | FromSystem

  datatype Commit = Commit(
    id: CommitId, zone: ZoneId, zoneName: Name,
    serialFrom: Serial, serialTo: Serial,
    kind: CommitKind, source: Source, actor: string, comment: string,
    revertsTo: Option<Serial>, events: seq<Event>)
}
