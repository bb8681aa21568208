# Wegweiser's write path, verified

Wegweiser is an authoritative DNS server. A change to a zone is worked out inside a
transaction that is thrown away, frozen as a *batch*, and carried out from that batch
on every member of a cluster. This project models that path, from the operations of a
command to the rows, the journal and the replicated log, and proves what it keeps in
every run. Beside it stand models of the smaller protocols the server depends on: who
votes, the per-key lock, key rotation, the list of ended sessions, the limit on failed
authentication, the log snapshot stream.

`dafny verify dfyconfig.toml` verifies all of it.

## How it is laid out

| files | what they hold |
|---|---|
| `Dns`, `Journal`, `Changes`, `Queues` | values, journal events and their replay, the queues of one zone and of a change set |
| `Store`, `Write`, `Ordering`, `View`, `Carry`, `Transaction` | rows, the constraints of the schema and the cascade; statements in provenance order; what a zone then serves |
| `Batch`, `History`, `Upkeep`, `Runs`, `Departure` | commits, and the law that the journal replays to the rows, for each kind of change |
| `Command`, `Reverse`, `Generation`, `Expansion`, `Upshot` | a command's operations and the reverse automation that extends them across zones |
| `Reconcile`, `Again`, `Seats` | reconciling a zone, doing it twice, and where generated entries stand |
| `Chain`, `Rollback`, `Restoring` | following the history back, and restoring an earlier state |
| `Provenance`, `Lifetime`, `Steady` | what generated records hang off, and whole runs of all these changes from an empty store on |
| `Validation`, `Accepted`, `InOrder` | checking only the names a change reached, in one batch and over whole runs |
| `Acceptance`, `Asking`, `Effects` | when the store takes a change, and what a command then leaves |
| `Cases`, `Mishaps`, `Leftover` | runs from an empty store to a change that breaks what one would expect of it |
| `Machine`, `Replica`, `Cluster`, `Replay`, `SideBySide` | the replicated log, its members, and the leader's writes |
| `Codec`, `Wired`, `Snapshot` | what travels between members |
| `Membership`, `KeyedMutex`, `Rotation`, `EndedSessions`, `AuthLimiter` | the smaller protocols |

The law at the centre is `History.Lawful`: in every zone the journal replays from
nothing to exactly the records the rows serve and to the start of authority apart from
its serial; every commit is deletions, then additions, numbered by position; and the
serials form an unbroken chain, none used twice, that ends at the zone's serial.

## What turned out otherwise

Where a property does not hold of the code as it stands, the code is modelled as it is,
the failing case is given, and the exact condition is proved. Accepted means that a planner
planned the change and the store took it; the check of touched names that comes on top is
the subject of `Validation` and `InOrder`.

* **A row named twice in one command.** The operations of a command are documented as
  applied in order (`internal/apply/command.go:143`), but each reads the row as stored.
  On any lawful store, two updates of one record's TTL in one command are both accepted,
  and the journal then deletes one record twice (`Mishaps.TwiceAmendedBreaksLaw`). An edit
  keeps the law if and only if it names no row twice and its removals are closed
  (`Command.EditLawfulIffOnce`). Validation, which is modelled apart, refuses such a
  command where the set has further records whose TTL would differ.
* **Retiring what a record generated.** Only A, AAAA and PTR records are looked below
  (`internal/apply/reverse.go:157-165`), and none in a zone whose automation is off
  (`internal/apply/reverse.go:103`). A run from an empty store leads to an entry that is
  detached, given another type and withdrawn, and takes its delegation with it unrecorded
  (`Mishaps.RetypedEntryTakesItsDelegation`); another to an address record that is withdrawn
  while the automation is off, and takes its entry with it unrecorded
  (`Leftover.OffWithdrawalBreaksLaw`). The journal stays true if and only if every removed
  record with something below it is of those types, in a zone with the automation on
  (`Upshot.ExpandedLawfulIff`), and a command keeps all generated records hanging off such
  types if and only if it retypes no record it leaves something below (`Provenance.TracedIff`).
* **Deleting a zone.** What its rows generated elsewhere is removed one level deep. What
  those generated in a third zone goes by cascade, unrecorded
  (`Cases.DeletionBreaksThirdZone`). `Departure.DeleteLawfulIff` says exactly when none does.
* **Reconciling twice.** The comment at `internal/apply/reconcile.go:22-24` has it that
  a pass only adds, because a change takes the entries it makes obsolete away itself. One
  made while a zone's automation is off does not. A run from an empty store: a record gets
  its entry; the automation is switched off; the record moves to another address, and a
  record listed before it (`internal/store/sqlite/records.go:28`) is given the address it
  had; the automation is switched on again, which runs a pass
  (`internal/apply/zone.go:229-233`). Under first-wins that pass comes to the second record
  while the entry still stands at its spot, then retires the entry, and is accepted; the
  next one finds the spot open (`Leftover.LeftoverNeedsTwoPasses`).
  `Again.SecondPassEmptyIff` is the exact condition on one pass. Where every generated entry
  stands at its record's address no order leaves anything over (`Seats.SeatedSettles`). A
  change keeps that so if and only if it leaves no entry behind, which none does where the
  automation is on (`Steady.TakenSeatedIff`), so in every run without such a command every
  pass is idempotent (`Steady.EveryPassIsIdempotent`).
* **Rolling back a generated record.** The comment at `internal/apply/rollback.go:23-26`
  says records the server generated are not restored. One that was removed since the
  target is put back, as an authored record, because an event does not say where its
  record came from (`internal/apply/rollback.go:308-318`). Key by key, that happens if and
  only if the record that was generated at the target is gone
  (`Rollback.GeneratedComesBackIff`, `Mishaps.UndoneAuthorsIff`), as it is wherever an
  address record was withdrawn since (`Mishaps.WithdrawnEntryComesBackByHand`).
* **A snapshot past a stall.** A stalled member still hands out snapshots
  (`internal/cluster/fsm.go:216-218`). Raft files one past the entry the member lacks, and a
  restart from it skips that entry (`Replica.SnapshotPastAStallLosesAnEntry`). Where every
  batch of the log carries commits of its own, a member started from a snapshot and
  delivered the rest holds what the log comes to if and only if no command had gone by
  unapplied when the snapshot was asked for (`ReplayOnce.StoreSnapshotServesIff`).
* **Raft's position and the stored one.** Raft's position can pass the stored one on a
  member that has not stalled; in no run does it if and only if every entry of the log is
  a command (`Replica.NeverPassesIff`).
* **Two plans on one state.** Without the lock, or with the leader changed in between, two
  batches that change the same zone can both be proposed. The second then cannot be written
  (`SideBySide.SecondIsRefused`), and a log with both has an entry no member can write
  (`SideBySide.BothProposedStall`).
* **Two membership changes at once.** The check on witnesses and the change it allows are
  separate calls; two removals checked before either is made leave witnesses a majority
  could consist of (`Membership.CheckedApartFails`). A run with checks made earlier stays
  sound if and only if each would pass where its change is made (`Membership.StaysSoundIff`).
* **Attempts in flight.** An attempt is allowed and its rejection recorded in separate
  critical sections. The least bound on rejections is the burst and the attempts in flight
  (`AuthLimiter.BoundsIff`), so one more than the burst bounds every run if and only if no
  two are in flight (`AuthLimiter.InTurnIff`), and forgetting idle addresses is harmless
  exactly up to ninety of them (`AuthLimiter.ForgetsNothingIff`).

## Model

| member | source | states |
|---|---|---|
| `Journal.FirstEventDecides` | internal/apply/rollback.go:211-237 | In a history that replays, the first event on a key in a range tells whether the record was there, and with which TTL, when the range began; no event means no change. |
| `Journal.FirstSoaDelDecides` | internal/apply/rollback.go:220-229 | Likewise for the start of authority: its first deletion in a range carries the one in force when the range began. |
| `Journal.ReplayConcat` | internal/apply/applier.go:482-545 | Replaying one stretch of history after another is replaying both, and fails where either does. |
| `Changes.RenderEvents` | internal/apply/changes.go:293-313 | The loops over the queues give deletions then additions, numbered by position: a difference sequence in the sense of section 4 of RFC 1995. |
| `Changes.FoldKeepsShape` | internal/apply/applier.go:551-587 | Folding a start of authority into a commit keeps it all deletions, then all additions, numbered by position. |
| `Changes.EventsCarryOut` | internal/apply/changes.go:293-313 | Replaying a commit's events over content the queue fits gives that content less what leaves plus what arrives, with the TTLs it arrives with. |
| `Changes.FoldedEventsCarryOut` | internal/apply/applier.go:551-587 | With a start of authority folded in, the same events also exchange the old one for the new one. |
| `Changes.OutcomeAt` | internal/apply/changes.go:293-313 | Key by key: what arrives is there as it arrived, what only leaves is gone, the rest is untouched. |
| `Ordering.Sort` | internal/apply/changes.go:219-283 | The loop with waiting counts ends on every input and computes the order the lemmas below are about. |
| `Ordering.OrderedIsPermutation` | internal/apply/changes.go:219-283 | What comes out is what went in, links in circles and identifiers used twice included. |
| `Ordering.OrderedIsInOrder` | internal/apply/changes.go:209-283 | On a forest with unique identifiers every dependent precedes its source, or every source its dependents. |
| `Store.Cascade` | internal/store/sqlite/migrations/0001_initial.sql:55-83 | What goes when rows go: a closed set that contains them and otherwise only stored rows. |
| `Store.CascadeIsLeast` | internal/store/sqlite/migrations/0001_initial.sql:75-75 | The cascade is contained in every closed set that contains the rows deleted. |
| `Store.ClosedIffNoMore` | internal/store/sqlite/migrations/0001_initial.sql:75-75 | A deletion takes nothing along if and only if nothing outside hangs off what is deleted. |
| `Store.CascadeInSteps` | internal/store/sqlite/records.go:318-325 | Deleting rows one after another takes in the end what deleting them together would. |
| `Store.DeleteKeepsIntegrity` | internal/store/sqlite/records.go:318-325 | Removing a closed set keeps every constraint of the schema. |
| `Store.PutKeepsIntegrity` | internal/store/sqlite/records.go:268-316 | A row the statement does not refuse keeps every constraint of the schema. |
| `Write.DeletesCascade` | internal/apply/changes.go:183-207 | Deletions that go through remove exactly the cascade of the rows queued. |
| `Write.OrderedDeletesSucceed` | internal/apply/changes.go:183-207 | A closed set, dependents first, is deleted without any statement finding its row gone. |
| `Write.DeletesExactIffClosed` | internal/apply/changes.go:209-218 | In provenance order, the removals succeed and take exactly the queued rows if and only if the queued rows are closed. |
| `Transaction.Gather` | internal/apply/changes.go:183-207 | The removals, updates and additions of all zones, in the order the zones were reached. |
| `Transaction.Tx.Carry` | internal/apply/changes.go:183-207 | Statement by statement the transaction ends in the state, or with the refusal, that writing the queue has: all removals, then all updates, then all additions. |
| `Transaction.Tx.Write` | internal/apply/batch.go:186-262 | A batch in the fixed order zones, rows, commits with their serials, dropped zones, ending in the state or the refusal of `WriteBatch`. |
| `Transaction.Tx.RecordCommits` | internal/apply/batch.go:227-251 | Every commit is appended and moves its zone's serial, or restores its start of authority. |
| `View.ReplacedServes` | internal/apply/changes.go:183-207 | Rows replaced by others serve exactly what replaying the queue leaves, and the queue fits what was served. |
| `Carry.WriteCarries` | internal/apply/changes.go:183-207 | Carrying a queue out keeps the constraints, zones and journal, and changes the rows by the cascade, the updates and the additions only. |
| `Carry.WriteServes` | internal/apply/changes.go:183-207 | A zone from which the removals take no row they do not name ends up serving what its own queue says. |
| `Carry.ClashRefused` | internal/apply/changes.go:183-207 | A queue that would update a row its own removals take, directly or by cascade, is refused. |
| `Carry.WriteKeepsAcyclic` | internal/apply/changes.go:209-283 | Carrying a queue out never closes a circle of provenance links. |
| `Batch.Plan` | internal/apply/applier.go:482-545 | One commit for each zone with something to record, in the order the zones were reached, as `Planned` gives them. |
| `Batch.PlanZone` | internal/apply/applier.go:500-545 | A zone's commit: its serial step, its metadata as addressed or followed-up zone, its events with the start of authority led in. |
| `Batch.Fold` | internal/apply/applier.go:551-587 | The start of authority goes to the head of each half, and everything is renumbered. |
| `History.CommitReplays` | internal/apply/applier.go:482-545 | An ordinary commit replays from the zone as it stood to the zone its changes make of it, start of authority included, and is a difference sequence. |
| `History.CreationReplays` | internal/apply/zone.go:148-172 | A zone's first commit replays from nothing to the whole zone. |
| `History.CommitsRecorded` | internal/apply/batch.go:227-251 | Recording commits appends them, touches no row, moves exactly the zones they name, and accepts no serial a zone already had. |
| `Upkeep.ZoneKeepsLaw` | internal/apply/batch.go:186-262 | The law outlives a batch in every zone whose unnamed rows the removals spare. |
| `Runs.GoneWasNamed` | internal/apply/reverse.go:152-206 | Where the law holds before and after, every row of the zone that went was named by the zone's own changes. |
| `Runs.EditLawfulIff` | internal/apply/batch.go:186-262 | An edit, an import or a rollback keeps the law in every zone if and only if no row left behind hangs off a row it removes. |
| `Runs.CreateKeepsLaw` | internal/apply/zone.go:148-172 | Creating a zone begins its history and keeps every other zone's. |
| `Runs.UpdateKeepsLaw` | internal/apply/zone.go:277-337 | Changing a zone's settings, whether or not that moves its start of authority, keeps the law. |
| `Acceptance.EditAcceptedIff` | internal/apply/batch.go:186-262 | As long as no zone has come round to a serial it had, a plan is accepted if and only if its statements go through. |
| `Acceptance.DeletionAccepted` | internal/apply/zone.go:382-433 | Likewise the deletion of a zone, if what it queues elsewhere goes through. |
| `Queues.PutWellPlanned` | internal/apply/changes.go:27-43 | Changes planned against the store as it stands may join a plan at a zone's own place. |
| `Departure.PlanDeparture` | internal/apply/zone.go:382-433 | Deleting a zone queues, zone by zone, exactly the rows elsewhere generated from its rows, each once. |
| `Departure.ShallowIffCascade` | internal/store/sqlite/records.go:240-247 | That one level is all the cascade takes outside the zone if and only if what it generated elsewhere generated nothing outside it in turn. |
| `Departure.DeleteLawfulIff` | internal/apply/zone.go:382-433 | Deleting a zone keeps every other zone's law if and only if that is so. |
| `Cases.ChainOccurs` | internal/apply/reverse.go:209-344 | A run of accepted changes from an empty store creates three zones and one address record, and reaches that record with its entry in a classless zone and the delegation above it. |
| `Cases.DeletionBreaksThirdZone` | internal/apply/zone.go:382-433 | From there deleting the address's zone is accepted, and the delegation's zone then has a journal that does not replay to its rows. |
| `Cases.StrungAddress` | internal/apply/reverse.go:272-344 | Such zones and addresses exist, named as section 4 of RFC 2317 names them. |
| `Command.Resolver.Resolve` | internal/apply/applier.go:613-673 | One operation, with every refusal it can meet, queued as `Resolved` says and nothing queued when refused. |
| `Command.Resolver.ResolveEach` | internal/apply/applier.go:416-421 | The operations in order, ending at the first refused. |
| `Command.Resolver.Replace` | internal/apply/applier.go:698-751 | The loops over the existing and the wanted records of a set queue what `ReplacedSet` gives. |
| `Command.ReplaceMakesSet` | internal/apply/command.go:21-24 | Replacing an RRset makes it exactly the records given, with the TTLs given, and changes no other set of the zone. |
| `Command.AllResolvedDraft` | internal/apply/applier.go:613-768 | Whatever the operations, what leaves are rows of the zone as they stand, authored or just detached, and what joins is authored. |
| `Command.CommandedIff` | internal/apply/applier.go:613-673 | Those changes are fit to be expanded if and only if no row is named twice. |
| `Command.TwiceNamedBreaksLaw` | internal/apply/applier.go:624-644 | Changes that name a row twice and are written all the same leave a journal that does not replay. |
| `Command.EditLawfulIffOnce` | internal/apply/applier.go:613-673 | An edit as its operations come to keeps the law if and only if it names no row twice and its removals are closed. |
| `Reverse.NotBelowItself` | internal/apply/reverse.go:182-206 | No record is below itself, which is why the work queue needs no list of what it has seen. |
| `Reverse.SweepStep` | internal/apply/reverse.go:184-206 | One turn of the work queue: what is retired so far is everything below what was taken off the queue. |
| `Reverse.RemoveEachPlanned` | internal/apply/reverse.go:171-182 | Queueing removals of stored rows not yet named keeps a plan sound and adds exactly those removals. |
| `Expansion.Planner.RetireBelow` | internal/apply/reverse.go:184-206 | Queues everything below a record, however deep, each row once, in the zone it lives in; and ends. |
| `Expansion.Planner.RetireGenerated` | internal/apply/reverse.go:154-168 | Does so for A, AAAA and PTR records and queues nothing for any other. |
| `Expansion.Planner.Sweep` | internal/apply/reverse.go:111-130 | Retires below every removed record and every record whose entry moves, before anything is generated. |
| `Expansion.Planner.Generate` | internal/apply/reverse.go:209-265 | Queues what an address record implies under the policy, as `Generation.Generate` says, or reports the conflict. |
| `Expansion.Planner.QueueDelegation` | internal/apply/reverse.go:272-344 | Queues the alias that makes an entry in a classless zone reachable (section 4 of RFC 2317), unless the name is taken. |
| `Expansion.Planner.Expand` | internal/apply/reverse.go:100-150 | Where the zone's automation is off a command stays as it is. Expanded otherwise, it is soundly planned; its removals are exactly those asked for and everything below the A, AAAA and PTR records removed or moved; its own changes are kept as they were; every further addition is an entry, or a delegation to one, that a record of the command implies; every such record's address answers; and each addition has its source. A command that updates a row its own removals take is left for the write to refuse; only the reject policy refuses here. The touched names stay those of what leaves and arrives. |
| `Expansion.ExpandedClosedIff` | internal/apply/reverse.go:100-206 | The removals of an expanded command are closed if and only if every record it removes with anything below it is an A, AAAA or PTR record and the automation is on. |
| `Generation.GenerateGrew` | internal/apply/reverse.go:209-265 | Generating only adds, and each addition hangs off a row that stays or an addition already queued. |
| `Generation.InstallExtra` | internal/apply/reverse.go:435-459 | Installing an entry adds the entry, and the alias pointing at it where one is due, and nothing else. |
| `Generation.SpreadGenerates` | internal/apply/reverse.go:132-150 | Generating for a list of records under any policy modelled only adds; each addition is implied by one of them; and each one's address answers afterwards, with its own name unless the policy lets the first win. |
| `Upshot.ExpandedLawfulIff` | internal/apply/reverse.go:100-150 | An expanded command keeps the law in every zone if and only if every record it removes that has anything below it is an A, AAAA or PTR record and the automation is on. |
| `Upshot.ExpandedDeletesSucceed` | internal/apply/changes.go:183-207 | Then every removal finds its row, and the database takes exactly the rows the journal names. |
| `Upshot.EveryInsertFindsItsSource` | internal/apply/changes.go:209-283 | When its turn comes, every addition finds the record it hangs off: a row that stays, or an addition made before. |
| `Effects.AuthorTaken` | internal/apply/reverse.go:209-344 | Under any of these policies, unless it is a conflict the policy rejects: authoring a record that generates is accepted and adds the record, its entry unless the address is answered for, the delegation to it unless the name is taken, and nothing else. |
| `Effects.WithdrawTaken` | internal/apply/reverse.go:152-206 | Withdrawing one is accepted and takes exactly it and everything below it. |
| `Provenance.TracedIff` | internal/apply/reverse.go:153-168 | Where every generated record hangs off an A, AAAA or PTR record, it is so after an accepted command that keeps the law if and only if the command gives no record it leaves something below another type. |
| `Mishaps.WithdrawBreaks` | internal/apply/reverse.go:100-168 | Withdrawing a record that nothing looks below, for its type or because the automation is off, is accepted wherever it stands, and the zone of what hangs off it then has a journal that does not replay to its rows. |
| `Mishaps.RetypedEntryTakesItsDelegation` | internal/apply/reverse.go:153-168 | A run from an empty store reaches an address, its entry and its delegation; detaching the entry and giving it another type are commands of that run, which stays lawful; withdrawing it is accepted, and the delegation's zone then has a journal that does not replay to its rows. |
| `Mishaps.TwiceAmendedBreaksLaw` | internal/apply/applier.go:624-644 | On every lawful store, two updates of one record's TTL in one command are resolved, written and accepted, and leave a journal that does not replay. |
| `Reconcile.Supersede` | internal/apply/reconcile.go:136-168 | Retires, with everything below them, exactly the entries of a record that are not where they belong. |
| `Reconcile.ReconcileOne` | internal/apply/reconcile.go:100-127 | One record's turn under the policy in force: overtaken entries retired, then an entry added if its spot is open, or refused if the policy rejects and the spot is contested. |
| `Reconcile.Reconcile` | internal/apply/reconcile.go:80-131 | Page by page, over the listed records of zones with the automation on, under any policy but last-wins: a pass queues exactly the cascades of all overtaken entries and, for each spot that was open at some record's turn, one entry, that of the first such record, and what points at it; with several names for an address, each name is a spot of its own. It touches just the names of what it moves. It is refused if and only if the policy rejects and some record finds its spot held, then, by other names only. |
| `Reconcile.ConflictIff` | internal/apply/reverse.go:366-411 | A policy that rejects refuses a record's turn if and only if its spot is held, by a row that stays or by the entry of the record first there, and neither has its name. |
| `Reconcile.HeldIff` | internal/apply/reverse.go:460-480 | Something will answer at a spot, with the name asked for if one is, if and only if a row there stays or an entry is queued for it. |
| `Reconcile.GenerateIs` | internal/apply/reverse.go:368-433 | Under every policy modelled an entry is added exactly where the spot is open, and nothing is refused but a conflict, by a policy that rejects. |
| `Again.HandWrittenIsSafe` | internal/apply/reconcile.go:80-168 | Under whichever of these policies, a pass removes generated records only and changes none. |
| `Again.PassIsClosed` | internal/apply/reconcile.go:136-168 | The removals of a pass are closed. |
| `Again.PassKeepsLaw` | internal/apply/reconcile.go:50-75 | So carrying a pass out keeps the law in every zone. |
| `Again.SecondPassEmptyIff` | internal/apply/reconcile.go:80-168 | A second pass, under the same policy, over what writing the first left is empty if and only if every spot that a record belongs at was kept or filled at that record's turn or later in the first pass. |
| `Leftover.LeftoverNeedsTwoPasses` | internal/apply/reconcile.go:80-168 | A run from an empty store, with the automation switched off and on again, reaches a record whose entry stands where a record listed before it belongs. The first-wins pass over the zone's address records, in the order of the listing, is accepted as the run's next step, and every further one over what it leaves is not empty. |
| `Leftover.OldLeavesToNew` | internal/store/sqlite/records.go:25-28 | There are such records: old.example leaves an address to new.example, which the canonical order of section 6.1 of RFC 4034 lists first. |
| `Leftover.OffWithdrawalBreaksLaw` | internal/apply/reverse.go:100-105 | A run from an empty store reaches an address record and its entry, in a zone whose automation was then switched off; withdrawing the record is accepted, and the entry's zone then has a journal that does not replay to its rows. |
| `Seats.SeatedSettles` | internal/apply/reconcile.go:80-168 | Where every generated entry hangs off an authored address record and stands at that address's name, and no two addresses share a name, a pass in whatever order, under whichever policy, leaves every record's spot kept or filled. |
| `Seats.SecondPassIsEmpty` | internal/apply/reconcile.go:80-168 | So a second pass directly afterwards plans nothing. |
| `Seats.SeatedIff` | internal/apply/reverse.go:100-150 | A command keeps every generated entry at its record's address if and only if none of its updates leaves one behind. |
| `Steady.TakenSeatedIff` | internal/apply/reverse.go:100-150 | Of every kind of change: it keeps them so if and only if it is no command that leaves one behind, and with the automation on none does. |
| `Steady.EveryRunSettled` | internal/apply/reverse.go:100-150 | So they stand there in every state of every run, from an empty store on, in which no command made with the automation off leaves one behind. |
| `Steady.EveryPassIsIdempotent` | internal/apply/reconcile.go:12-24 | And in every such state, whatever the order of the listing and the policy, what is left after a pass is nothing to the next under the same one. |
| `Chain.ChainBack` | internal/apply/rollback.go:154-173 | Ends on every map; finds a chain if and only if following the map back from the later serial ever reaches the earlier one; and what it returns is the shortest such way, oldest first, so that the length guard drops none. |
| `Chain.ChainIsContiguous` | internal/apply/rollback.go:154-173 | Such a chain runs from the one serial to the other without a gap. |
| `Chain.CommitsBetween` | internal/apply/rollback.go:119-150 | Wherever the pages fall, it finds a chain exactly when the whole listing holds one, and reports nothing found otherwise. |
| `Chain.Reverse` | internal/apply/rollback.go:191-196 | Reverses the array in place. |
| `Rollback.ReadRange` | internal/apply/rollback.go:211-237 | Collects the first event on every key of the range and the first deletion of a start of authority. |
| `Rollback.UndoEach` | internal/apply/rollback.go:262-266 | Whatever order the keys come in, each gets what it needs and nothing else, and the loop stops at an error if and only if some key that has to come back cannot be parsed. |
| `Rollback.Undo` | internal/apply/rollback.go:211-329 | What leaves are the rows held, unchanged; what is put back is authored, under new identifiers; a key gets a record exactly where one was and none is, loses one exactly where none was and one stands that nobody generated, and another TTL exactly where only that differs; and it is refused exactly when some record to be put back can no longer be parsed. |
| `Rollback.UndoneRestores` | internal/apply/rollback.go:292-329 | Applying that queue gives every key not held by a generated record the presence and TTL it had when the range began. |
| `Rollback.SoaComesBack` | internal/apply/rollback.go:271-289 | And the zone the start of authority it had then, serial aside. |
| `Rollback.ChainIsRest` | internal/apply/rollback.go:111-150 | The chain back to a serial of the zone's history is exactly the commits after it, wrapped serials included. |
| `Rollback.RollbackIn` | internal/apply/rollback.go:72-109 | Rolling back to the current serial does nothing; to a serial not before it is refused; to one of the history restores the state there; and one of the history is always found. |
| `Rollback.GeneratedComesBackIff` | internal/apply/rollback.go:308-318 | Of each record that was generated at the target: undoing puts it back, as an authored one, if and only if it is gone. |
| `Mishaps.UndoneAuthorsIff` | internal/apply/rollback.go:72-109 | The same of two lawful stores, one later than the other. |
| `Mishaps.WithdrawnEntryComesBackByHand` | internal/apply/rollback.go:308-318 | On every lawful store: an address record withdrawn and its entry gone with it, both by an accepted command; whatever rolling the entry's zone back works out puts the entry back as an authored record. |
| `Restoring.LawfulHistory` | internal/apply/rollback.go:72-109 | The law gives a rollback what it relies on: a chained history that replays to what the zone holds. |
| `Restoring.PlanRollback` | internal/apply/rollback.go:72-109 | On a lawful store, planning a rollback gives the changes that undo everything after the target, expanded as a command is, or a refusal; to the current serial it plans nothing. |
| `Restoring.RolledBack` | internal/apply/rollback.go:72-109 | What was so planned and accepted serves, at every key whose record is generated neither before nor after, what the zone served at the target, under the target's start of authority, at the next serial if it changed anything. |
| `Lifetime.TakenLawfulIff` | internal/apply/batch.go:186-262 | Whichever planner a change comes from, an edit, a rollback, a reconciliation, a creation, a change of settings or a deletion: accepted on a lawful store, it keeps the law in every zone if and only if its removals take along nothing they do not look for. |
| `Lifetime.TakenTraced` | internal/apply/reverse.go:153-168 | Where every generated record hangs off an A, AAAA or PTR record, every change spares what it does not name, but for deletions and for what is done with the automation off, and it stays so unless a command retypes a record that something hangs off. |
| `Lifetime.RunLawfulIff` | internal/apply/batch.go:186-262 | Every state of a run is lawful if and only if every accepted change in it took along nothing it did not look for. |
| `Lifetime.EveryRunLawful` | internal/apply/batch.go:186-262 | So the law holds in every zone in every state of every run of all six kinds of change, from an empty store on, in which no command retypes a record that something it leaves hangs off, and deletions and removals with the automation off take along nothing they do not name. |
| `Validation.WholeZoneIff` | internal/zone/validate.go:128-188 | Checking a whole zone in one sweep is checking every owner name on its own against the delegation closest above it. |
| `Validation.ClosestIsNearest` | internal/apply/applier.go:906-928 | Looking for a delegation up to the apex finds what looking through all of them finds. |
| `Validation.NamesUnder` | internal/apply/applier.go:872-903 | Exactly the owner names strictly below a name. |
| `Validation.ValidateTouched` | internal/apply/applier.go:786-823 | Accepts if and only if every touched name, and every name below a touched delegation, is in order. |
| `Validation.UntouchedStaysOk` | internal/apply/applier.go:786-823 | A name outside the change stays in order unless a touched name above it now delegates; uncovering a name or removing a nested delegation cannot hurt it. |
| `Validation.Validate` | internal/apply/applier.go:786-928 | In a zone that was in order, checking what the change reached accepts exactly what checking the whole resulting zone accepts. |
| `Validation.ReachedIff` | internal/apply/applier.go:786-823 | Said of the records: a zone that was in order is after a change if and only if every touched name is, and every name below a touched delegation. |
| `Changes.ReplaceInStep` | internal/apply/changes.go:90-116 | Queueing a replacement keeps the touched names exactly those of what leaves and what arrives. |
| `Command.ResolvedAllInStep` | internal/apply/applier.go:613-768 | So they are after any operations. |
| `Generation.SpreadInStep` | internal/apply/reverse.go:132-150 | And after whatever is generated from a list of records. |
| `Accepted.TouchedBounds` | internal/apply/changes.go:90-116 | So outside the touched names carrying the queue out changes nothing, which is what checking only them relies on. |
| `Accepted.ValidateWritten` | internal/apply/applier.go:786-823 | Checking the names touched in a zone that was in order accepts a written batch with closed removals if and only if the whole zone it leaves is in order. |
| `InOrder.WroteOkIff` | internal/apply/batch.go:163-181 | In a zone from which a write takes no row it does not name, the zone stays in order if and only if every name its changes reach is, with what a delegation there hides. |
| `InOrder.FoundingOkIff` | internal/apply/zone.go:110-172 | A zone created with records that are in order among themselves is in order, with what was generated into it, and so is every other zone, if and only if all is where the creation reaches. |
| `InOrder.TakenOkIff` | internal/apply/batch.go:154-181 | Of every kind of change that keeps the law, accepted on a store whose zones are all in order: they all still are if and only if each is where the change reaches. |
| `InOrder.EveryRunInOrder` | internal/apply/batch.go:154-181 | So in every state of every lawful run, from an empty store on, whose changes are checked only where they reach, every zone is in order as a whole. |
| `Machine.Fsm.ApplyBatchAt` | internal/apply/applier.go:308-345 | Content and position move together or not at all, and an entry at or before the position is passed over. |
| `Machine.Fsm.Apply` | internal/cluster/fsm.go:117-164 | An entry is tried a bounded number of times; the last failure stalls, a shutdown does not; after a stall nothing is applied. |
| `Machine.Fsm.StoreConfiguration` | internal/cluster/fsm.go:196-212 | A configuration entry moves the position and leaves the content alone, unless stalled. |
| `Machine.Fsm.Restore` | internal/cluster/fsm.go:226-258 | A readable snapshot of a store replaces content and position; an unreadable one, a witness's, or one that cannot be written stalls. |
| `Machine.Fsm.Persist` | internal/cluster/fsm.go:263-283 | Restoring what is written gives any member that has not stalled the content held here at the position it is held at, unless nothing was ever applied, from which no member restores. |
| `Replica.EveryRunHolds` | internal/cluster/fsm.go:117-283 | In every run of deliveries, retries, configuration entries, snapshots, restores, shutdowns and restarts on an older database, the content is the fold of the log up to the stored position; on a running member that has not stalled, Raft has passed no command that is not in it; and every snapshot kept is good. |
| `Replica.MembersAgree` | internal/cluster/fsm.go:117-164 | Two members at the same stored position hold the same. |
| `Replica.StallFreezesRun` | internal/cluster/fsm.go:167-185 | From the first stall until a restart neither the content, the position nor the recorded stall changes. |
| `Replica.NeverPassesIff` | internal/cluster/fsm.go:196-212 | In no run does Raft's position pass the stored one on a running member that has not stalled, if and only if every entry of the log is a command. |
| `Replica.SnapshotServes` | internal/cluster/node.go:366-392 | A member started from a snapshot asked for while no command had gone by unapplied, and delivered the rest of the log, holds what the whole log comes to. |
| `Replica.SnapshotServesIff` | internal/cluster/fsm.go:214-218 | Where every command of the log adds to the content, if and only if so. |
| `Replica.StalledIsPast` | internal/cluster/fsm.go:117-164 | A member that stalls at a command has gone past it: from then on a command has gone by unapplied. |
| `Replica.SnapshotPastAStallLosesAnEntry` | internal/cluster/node.go:366-392 | A run in which such a snapshot is written and started from, after which an entry of the log is missing for good. |
| `Cluster.EveryRunOrderly` | internal/apply/applier.go:173-239 | In every run of a leader under the lock, from whatever log that can be carried out it is elected with and however much of it is applied, at most one write is past planning, nested writes included, and the log folds without a refusal. |
| `Cluster.EveryTermOrderly` | internal/cluster/node.go:301-316 | So it is term after term: where each leader starts with some part of the log an earlier one ended with, and no write in flight. |
| `Cluster.ProposedAsPlanned` | internal/apply/applier.go:173-257 | What is proposed was planned against exactly what the whole log comes to, and its planned result is what the log comes to with it. |
| `Cluster.NoMemberCanRefuse` | internal/cluster/node.go:461-491 | So no member true to the log can fail to write an entry for what the entry says, and the result is the planned one. |
| `SideBySide.SecondIsRefused` | internal/apply/batch.go:227-251 | On a lawful store, of two batches planned on it that both change a zone, the second cannot be written once the first is. |
| `SideBySide.BothProposedStall` | internal/cluster/node.go:301-316 | So a log with both, each fit for the store as it stood, has an entry no member can write. |
| `ReplayOnce.CountSeen` | internal/apply/batch.go:134-153 | Counts the batch's commits the journal already has, telling none, some and all apart. |
| `ReplayOnce.OnceIsEnough` | internal/apply/batch.go:134-153 | Carried out again, a batch changes nothing. |
| `ReplayOnce.CarriedAsPlanned` | internal/apply/applier.go:308-345 | A batch with identifiers of its own is carried out as it was planned, and refused only where writing it is. |
| `ReplayOnce.JournalIsLogged` | internal/apply/batch.go:134-153 | Whatever the journal holds after a log, it held at the start or was given by a batch of the log. |
| `ReplayOnce.StoreSnapshotServesIff` | internal/cluster/fsm.go:214-218 | Where every batch of the log has commits and no identifier is used twice, a member started from a snapshot and delivered the rest holds the store the log comes to if and only if no command had gone by unapplied. |
| `Codec.Marshal` | internal/apply/codec.go:310-364 | The wire value, without zones that have nothing to write. |
| `Codec.UnmarshalZones` | internal/apply/codec.go:376-409 | The queues back, refusing a zone named twice and any record that does not parse, is not canonical or is not valid. |
| `Codec.DecodeEncode` | internal/apply/codec.go:366-473 | Decoding the encoding of a batch of valid records, zones and commits gives it back without its empty zones, claims and copies of zones. |
| `Codec.ArrivedWritesTheSame` | internal/apply/batch.go:218-251 | What arrives writes the same result, or meets the same refusal, on every store as what was sent, although empty zones, claims and copies of zones are dropped. |
| `Codec.EncodeAgain` | internal/apply/codec.go:310-364 | Encoding what arrived gives the same wire value. |
| `Codec.PlannedBacked` | internal/apply/applier.go:494-498 | Planning records a commit only for zones with something to write, which is why dropping the others is safe. |
| `Wired.TakenTravels` | internal/apply/codec.go:310-473 | What any planner planned and the store took, creations, settings changes and deletions included, decodes elsewhere and writes there what it wrote here. |
| `Wired.WrittenIsWellFormed` | internal/apply/codec.go:366-473 | Whatever the store's own checks let through passes those of the decoder. |
| `Snapshot.WriteSnapshot` | internal/apply/snapshot.go:82-118 | Writes a header, an item a line and an end mark with their number; refuses an unknown writer and an item that is not valid. |
| `Snapshot.ReadSnapshot` | internal/apply/snapshot.go:123-184 | Reads as the specification below reads. |
| `Snapshot.ReadOkIff` | internal/apply/snapshot.go:123-184 | Reading ends without an error if and only if the stream is a good header, readable items and an end mark that counts them, with nothing after. |
| `Snapshot.ReadWritten` | internal/apply/snapshot.go:82-184 | Reading what was written yields its header and exactly its items. |
| `Snapshot.PrefixFails` | internal/apply/snapshot.go:123-184 | Cut short at any line, it does not read. |
| `Snapshot.WrongCountFails` | internal/apply/snapshot.go:123-184 | Nor with a wrong number in its end mark. |
| `Snapshot.TrailingFails` | internal/apply/snapshot.go:123-184 | Nor with anything after its end. |
| `Snapshot.ItemBack` | internal/apply/snapshot.go:187-273 | Every valid item comes back from its line. |
| `Membership.KeepsWitnessesFew` | internal/cluster/witness.go:24-45 | Refuses exactly the changes after which witnesses would be half of the voters or more. |
| `Membership.Admit` | internal/cluster/join.go:234-284 | A malformed request is refused, a witness that may not vote is not even staged, and a voter is staged before it votes. |
| `Membership.Remove` | internal/cluster/node.go:418-441 | Refuses an unknown member, the last voter, and a removal that leaves witnesses too many. |
| `Membership.EveryRunSound` | internal/cluster/node.go:397-441 | Over every sequence of joins, promotions and removals there is a voter, each member appears once, and witnesses are none or fewer than half of the voters. |
| `Membership.EveryMajorityHoldsData` | internal/cluster/witness.go:18-45 | So every majority of the voters contains a member that holds data. |
| `Membership.CheckedApartFails` | internal/cluster/node.go:418-441 | Two removals, each allowed by a check made before either, break that. |
| `Membership.MadeSoundIff` | internal/cluster/node.go:397-441 | A join, a witness's vote or a removal checked at one configuration and made at another keeps the voters sound if and only if what was counted would still count out there. |
| `Membership.StaysSoundIff` | internal/cluster/node.go:397-441 | A run whose checks were made at earlier configurations stays sound throughout if and only if each would pass where its change is made. |
| `KeyedMutex.EveryRunSound` | internal/apply/applier.go:976-1012 | In every interleaving of enter, acquire, release and leave: a lock object's count is the number of goroutines that entered on it and have not left, an object in use is the one its key leads to, and a key nobody uses is absent. |
| `KeyedMutex.MutualExclusion` | internal/apply/applier.go:987-1012 | At most one goroutine holds a key at a time. |
| `KeyedMutex.NothingKept` | internal/apply/applier.go:976-1012 | The map is empty if and only if nobody is using any key. |
| `Rotation.RotateKeys` | internal/apply/session.go:136-167 | Rotates if and only if due. What the current key sealed opens either way; rotating gives up exactly what only the key before it opened. |
| `Rotation.EverythingOpens` | internal/apply/session.go:113-134 | In every run with rotations only when due, what was sealed under the current key opens at every moment before it expires, if it lives no longer than a key stays current. |
| `Rotation.NeverLostIff` | internal/apply/session.go:113-134 | And only then: nothing is ever lost in any run if and only if the lifetime is within the rotation period. |
| `Rotation.SessionsAndCookiesOpen` | internal/apply/cookie.go:116-143 | So a session opens for its lifetime and a server cookie for the hour of section 4.3 of RFC 9018. |
| `EndedSessions.EndSessions` | internal/apply/session.go:284-327 | An entry that has run out changes nothing; any other takes the place of what it replaces, and what has run out is dropped. |
| `EndedSessions.PrunedSaysTheSame` | internal/api/auth.go:427-460 | For every session that has not run out, the pruned list refuses it if and only if the whole history of endings does. |
| `EndedSessions.PersonEndsWhatWasOpen` | internal/apply/session.go:217-280 | Ending a person refuses exactly those of their sessions opened by then. |
| `AuthLimiter.Limiter.Allow` | internal/api/auth.go:613-623 | An address is allowed while its bucket is no further ahead than the burst, and counts as heard from either way. |
| `AuthLimiter.Limiter.Spend` | internal/api/auth.go:626-642 | Forgets what is stale, then puts this address's bucket one refill further on from now or from where it was. |
| `AuthLimiter.RejectionsAreBounded` | internal/api/auth.go:583-653 | In any window of a run one address collects no more rejections than the burst, the attempts that may be in flight, and what the window refills. |
| `AuthLimiter.BoundsIff` | internal/api/auth.go:583-653 | With one to ninety attempts in flight that is the least bound: the burst and all of them can be rejected at one moment. |
| `AuthLimiter.InTurnIff` | internal/api/auth.go:613-623 | One more than the burst bounds every run if and only if no two attempts are in flight. |
| `AuthLimiter.ForgettingChangesNoVerdict` | internal/api/auth.go:644-653 | With at most ninety attempts in flight, every verdict is the one an address never forgotten would get. |
| `AuthLimiter.ForgetsNothingIff` | internal/api/auth.go:589-591 | And exactly then. |

## Left out

- Expansion.Planner.Generate: the last-wins policy is not modelled, neither for commands nor
  for passes. It takes an entry away without retiring what hangs off it and may remove one
  that is only queued. Nor are the notes a result carries.
- Command.Resolver.Resolve: does not make a name canonical, so no command has claims to expand.
- Transaction.Tx.Write: settings, tokens and transfer keys of a batch are not modelled;
  they are further rows written beside these, with no bearing on zones.
- Codec.Marshal: does not model them on the wire either.
- Snapshot.ItemBack: of the items beside zones, records and commits only settings are modelled.
- Timestamps, which nothing in the modelled path decides by, and the wording of comments
  on follow-up commits, which is a parameter.
- Letter case, in the names of zones and of people: a name is one spelling of itself.
- Presentation formats. That canonical text reads back as the data it was printed from is
  a condition of the codec and snapshot results, not a result.
- JSON and base64 text, authenticated encryption, hashing and SipHash-2-4, randomness:
  encodings are modelled at the level of structures, identifiers and keys as distinct values.
- Which reverse zone an address belongs to: functions of the address, given to the model,
  that name zones of the store.
- Raft, SQLite and the network: a committed log, atomic transactions and delivered requests
  are assumed. Waiting between retries is dropped, the number of attempts kept. A snapshot
  that cannot be read at all is not kept as filed, so the member it stalls may start again.
- Answering queries, transfers, NOTIFY, the HTTP interface and the command line.
- Cluster.EveryRunOrderly: leadership kept from settling to proposing is part of the run
  relation, because without it `SideBySide.BothProposedStall`.
- Lifetime.EveryRunLawful: the commands of a run name no row twice, and it holds under the
  condition in its row; without it, `Lifetime.RunLawfulIff` is the exact statement.
- InOrder.EveryRunInOrder: for runs as in `Lifetime.EveryRunLawful`; what a network a zone
  answers for has to do with its name is a parameter.
- Wired.TakenTravels: that a reverse zone's network is read off its name is a condition on
  the zone created or changed.
- Membership.EveryRunSound: each check and the change it allows are one step; for checks made
  earlier the exact statement is `Membership.StaysSoundIff`.
- EndedSessions.PrunedSaysTheSame: clocks of different members are one clock that does not go
  back, and an ending of one session carries that session's own expiry.
- Replica.EveryRunHolds: snapshots are asked for only while no command has gone by unapplied,
  which by `Replica.SnapshotServesIff` is when they serve.
