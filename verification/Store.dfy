/** The database as the write path uses it: the rows, what each statement
    demands of them, and the cascade a deletion sets off. */
module Store {
  import opened Dns
  import opened Journal

  type Rows = map<RecordId, Record>

  datatype Db = Db(zones: map<ZoneId, Zone>, rows: Rows, commits: seq<Commit>)

  const MAX_TTL := 0x7fff_ffff

  // ------------------------------------------------------------ the checks

  /** Data is parsed by type, so an address record has an address. */
  predicate ValidRecord(r: Record)
  {
    && r.typ != SOA && r.ttl <= MAX_TTL && (r.managedBy.None? <==> r.managedKind.None?)
    && (r.typ == A || r.typ == AAAA ==> r.data.AddressData?)
  }

  predicate ValidSoa(s: Soa)
  {
    && s.ns != []
    && s.refresh <= MAX_TTL && s.retry <= MAX_TTL && s.expire <= MAX_TTL
    && s.minimum <= MAX_TTL && s.ttl <= MAX_TTL
    && s.refresh != 0 && s.retry != 0
    && s.expire > s.refresh + s.retry
  }

  predicate ValidZone(z: Zone)
  {
    z.defaultTtl <= MAX_TTL && ValidSoa(z.soa)
  }

  /** Each commit is one step of the serial, except the one a zone starts with. */
  predicate ValidSerials(c: Commit)
  {
    && (if c.kind == ZoneCreate then c.serialFrom == 0 && c.serialTo != 0 else c.serialTo == Next(c.serialFrom))
    && (c.kind == Rollback <==> c.revertsTo.Some?)
    && (c.revertsTo.Some? ==> Comparable(c.revertsTo.value, c.serialFrom) && Before(c.revertsTo.value, c.serialFrom))
  }

  predicate ValidCommit(c: Commit)
  {
    ValidSerials(c) && DifferenceSequence(c.events)
  }

  // ------------------------------------------------------------ the schema

  /** No other row of the zone holds the same resource record. */
  predicate FreeKey(rows: Rows, r: Record)
  {
    forall id :: id in rows && id != r.id && rows[id].zone == r.zone ==> KeyOf(rows[id]) != KeyOf(r)
  }

  /** What the schema keeps true of the rows: identifiers, one row to a resource
      record, and no reference to a row or a zone that is not there. */
  ghost predicate Integrity(db: Db)
  {
    && RowsOk(db.rows)
    && UniqueKeys(db.rows)
    && Linked(db.rows)
    && Housed(db.rows, db.zones)
    && (forall z :: z in db.zones ==> db.zones[z].id == z)
  }

  ghost predicate RowsOk(rows: Rows)
  {
    forall id :: id in rows ==> rows[id].id == id && ValidRecord(rows[id])
  }

  ghost predicate UniqueKeys(rows: Rows)
  {
    forall a, b :: a in rows && b in rows && a != b && rows[a].zone == rows[b].zone ==> KeyOf(rows[a]) != KeyOf(rows[b])
  }

  ghost predicate Linked(rows: Rows)
  {
    forall id :: id in rows && rows[id].managedBy.Some? ==> rows[id].managedBy.value in rows
  }

  ghost predicate Housed(rows: Rows, zones: map<ZoneId, Zone>)
  {
    forall id :: id in rows ==> rows[id].zone in zones
  }

  // ----------------------------------------------------------- the cascade

  /** The rows generated from one of these. */
  function Below(rows: Rows, gone: set<RecordId>): set<RecordId>
  {
    set id | id in rows && rows[id].managedBy.Some? && rows[id].managedBy.value in gone
  }

  /** Everything that goes when these go: their dependents, theirs, and so on. */
  function Cascade(rows: Rows, gone: set<RecordId>): (all: set<RecordId>)
    ensures gone <= all && Closed(rows, all)
    ensures forall id :: id in all && id !in gone ==> id in rows
    decreases rows.Keys - gone
  {
    var more := Below(rows, gone) - gone;
    if more == {} then gone
    else
      assert rows.Keys - (gone + more) < rows.Keys - gone by {
        var id :| id in more;
        assert id in rows.Keys - gone && id !in rows.Keys - (gone + more);
      }
      Cascade(rows, gone + more)
  }

  /** Nothing outside hangs off anything inside. */
  predicate Closed(rows: Rows, d: set<RecordId>)
  {
    Below(rows, d) <= d
  }

  /** The cascade takes no more than it has to. */
  lemma {:induction false} CascadeIsLeast(rows: Rows, gone: set<RecordId>, d: set<RecordId>)
    requires gone <= d && Closed(rows, d)
    ensures Cascade(rows, gone) <= d
    decreases rows.Keys - gone
  {
    var more := Below(rows, gone) - gone;
    if more != {} {
      assert Below(rows, gone) <= Below(rows, d);
      var id :| id in more;
      assert id in rows.Keys - gone && id !in rows.Keys - (gone + more);
      CascadeIsLeast(rows, gone + more, d);
    }
  }

  /** A set the cascade adds nothing to is a closed one, and the other way round. */
  lemma ClosedIffNoMore(rows: Rows, d: set<RecordId>)
    ensures Closed(rows, d) <==> Cascade(rows, d) == d
  {
    if Closed(rows, d) {
      CascadeIsLeast(rows, d, d);
    }
  }

  /** Taking rows away in two steps takes away what one step would. */
  lemma CascadeInSteps(rows: Rows, a: set<RecordId>, b: set<RecordId>)
    ensures Cascade(rows, a) + Cascade(rows - Cascade(rows, a), b) == Cascade(rows, a + b)
  {
    var first := Cascade(rows, a);
    var rest := rows - first;
    var second := Cascade(rest, b);
    var all := Cascade(rows, a + b);
    CascadeIsLeast(rows, a, all);
    assert Closed(rest, all) by {
      assert Below(rest, all) <= Below(rows, all);
    }
    CascadeIsLeast(rest, b, all);
    assert Closed(rows, first + second) by {
      forall id | id in Below(rows, first + second)
        ensures id in first + second
      {
        if id !in first {
          assert rows[id].managedBy.value in first ==> id in Below(rows, first);
          assert id in rest && rest[id] == rows[id];
          assert rest[id].managedBy.value in second;
          assert id in Below(rest, second);
        }
      }
    }
    CascadeIsLeast(rows, a + b, first + second);
  }

  // -------------------------------------------------------- the statements

  function DeleteRecord(db: Db, id: RecordId): Result<Db>
  {
    if id !in db.rows then Err(NotFound)
    else Ok(db.(rows := db.rows - Cascade(db.rows, {id})))
  }

  /** What a row has to satisfy before it is stored. */
  function Refused(db: Db, r: Record): Option<Refusal>
  {
    if !ValidRecord(r) then Some(Invalid)
    else if !FreeKey(db.rows, r) then Some(Conflict)
    else if r.zone !in db.zones || (r.managedBy.Some? && r.managedBy.value !in db.rows) then Some(Conflict)
    else None
  }

  function UpdateRecord(db: Db, r: Record): Result<Db>
  {
    if !ValidRecord(r) then Err(Invalid)
    else if r.id !in db.rows then Err(NotFound)
    else
      match Refused(db, r)
      case Some(why) => Err(why)
      case None => Ok(db.(rows := db.rows[r.id := r]))
  }

  function InsertRecord(db: Db, r: Record): Result<Db>
  {
    if !ValidRecord(r) then Err(Invalid)
    else if r.id in db.rows then Err(Conflict)
    else
      match Refused(db, r)
      case Some(why) => Err(why)
      case None => Ok(db.(rows := db.rows[r.id := r]))
  }

  predicate FreeName(zones: map<ZoneId, Zone>, z: Zone)
  {
    forall id :: id in zones && id != z.id ==> zones[id].name != z.name
  }

  function CreateZone(db: Db, z: Zone): Result<Db>
  {
    if !ValidZone(z) then Err(Invalid)
    else if z.id in db.zones || !FreeName(db.zones, z) then Err(Conflict)
    else Ok(db.(zones := db.zones[z.id := z]))
  }

  function UpdateZone(db: Db, z: Zone): Result<Db>
  {
    if !ValidZone(z) then Err(Invalid)
    else if z.id !in db.zones then Err(NotFound)
    else if !FreeName(db.zones, z) then Err(Conflict)
    else Ok(db.(zones := db.zones[z.id := z]))
  }

  function SetZoneSerial(db: Db, z: ZoneId, serial: Serial): Result<Db>
  {
    if z !in db.zones then Err(NotFound)
    else Ok(db.(zones := db.zones[z := db.zones[z].(soa := db.zones[z].soa.(serial := serial))]))
  }

  function InZone(rows: Rows, z: ZoneId): set<RecordId>
  {
    set id | id in rows && rows[id].zone == z
  }

  /** A zone takes its rows with it, and they take theirs. Its history stays. */
  function DeleteZone(db: Db, z: ZoneId): Result<Db>
  {
    if z !in db.zones then Err(NotFound)
    else Ok(db.(zones := db.zones - {z}, rows := db.rows - Cascade(db.rows, InZone(db.rows, z))))
  }

  function AppendCommit(db: Db, c: Commit): Result<Db>
  {
    if !ValidCommit(c) then Err(Invalid)
    else if exists i :: 0 <= i < |db.commits| && SameSlot(db.commits[i], c) then Err(Conflict)
    else Ok(db.(commits := db.commits + [c]))
  }

  /** An identifier is used once, and a zone reaches a serial once. */
  predicate SameSlot(a: Commit, b: Commit)
  {
    a.id == b.id || (a.zone == b.zone && a.serialTo == b.serialTo)
  }

  // ----------------------------------------------- what statements maintain

  lemma DeleteKeepsIntegrity(db: Db, gone: set<RecordId>)
    requires Integrity(db) && Closed(db.rows, gone)
    ensures Integrity(db.(rows := db.rows - gone))
  {
    var rows := db.rows - gone;
    forall id: RecordId | id in rows && rows[id].managedBy.Some?
      ensures rows[id].managedBy.value in rows
    {
      assert id in db.rows && rows[id] == db.rows[id];
      assert db.rows[id].managedBy.value in gone ==> id in Below(db.rows, gone);
    }
  }

  lemma PutKeepsIntegrity(db: Db, r: Record)
    requires Integrity(db) && Refused(db, r).None?
    ensures Integrity(db.(rows := db.rows[r.id := r]))
  {
  }
}
