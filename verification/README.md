# Failovarr: verification of the replication model

Failovarr replicates configuration from one authoritative Dispatcharr node (Main) to a Follower through signed,
sequence-numbered bundles, hands authority over between the two nodes, and keeps the bundles in shared storage.
This project models that behaviour in Dafny 4.11 and proves what it keeps, for every input and every run.
`dafny verify dfyconfig.toml` checks all of it.

## What is modelled

**The online protocol** (`Engine`, `Handoff`, `HandoffSafety`, `HandoffRuns`, `HandoffScenarios`, `HandoffLoss`). Two
nodes run any interleaving of their locked blocks: export (reserve the sequence, write the outbound copy, write shared
storage), request, prepare, confirm, fence, surrender, grant, import, accept, client serving, errors and crashes. What
an operation remembers between two blocks is lost in a crash; a reader may get any bundle ever published. The runs are
classified by three questions: may operations overlap on one node, may a grant be let through although its import
reported conflicts, and may an export take its sequence after the authority it checked is gone. The code allows all
three. The answers are exact:

* at most one node is ever authoritative exactly when not both of the first two are allowed
  (`AuthorityIsExclusive`);
* sequences of all bundles either node creates strictly increase exactly when every accepted grant was applied and
  overlapping exports still have their authority (`SequencesIncrease`); each direction that fails has a concrete run;
* authority is lost by exactly the events `LostExactly` lists, among them a crash between surrender and grant and an
  initialization from a bundle that is a grant, and it never comes back.

`Replication` holds the engine as a class whose methods run without interruption. `HandoffCalls` ties it to the
machine: each of its calls is a sequence of enabled steps that ends in the state the method promises, wherever
publication stops and however the database import ends. The runs of `HandoffScenarios` are made of these calls.

**Cold standby** (`ColdStandby`, `ColdStandbyRuns`). One node runs at a time; starts look for a newer writer, graceful
stops publish a shutdown bundle, abrupt stops happen anywhere, and plugin actions overlap with the service and with
each other, each checking outside the lock what it does inside. Again the answers are exact:

* published sequences increase over all runs exactly when every start can read storage and no stop and no other
  export publishes on a check made before recovery had ended (`PublishedSequencesIncrease`);
* without any publication a passive node can become authoritative exactly when the newest bundle is the peer's
  shutdown bundle for it and it has not got past it (`PromotedExactly`), which an abrupt stop can leave so;
* a started node with authority has read the newest bundle, exactly when moreover every publication gets through
  (`ReturnsFollow`).

**The import** (`Records`, `Planner`, `Reconcile`, `Merge`, `Spelling`, `Domains`, `Transaction`, `History`,
`ImportSafety`, `DomainImport`, `Reimport`, `HandoffImport`). Overrides, local protection, new-record policies,
validation, surrogate ids, the planner, locked rows and the transaction, over tables of any size. A clean import ends
in exactly the desired rows, one recorded row change after the other; after each of them every non-null key value has
one holder and every locked row is in its place. Importing the same bundle again, after an import or an initialization, plans nothing exactly when every
record created disabled is protected by then or disabled at its source. That condition holds for an engine built from
the reloaded settings and may fail for a background service that still runs with the settings it started with.

**References across an import** (`DomainGraph`, `ScopeImport`). The prerequisites of domains, the closure of a
selection under them, and the reference columns behind them: all references of a scope can be followed exactly when it
passes the closure check. From a follower and a bundle without dangling references an import has none in any
of its states, exactly when deletions are not allowed everywhere or whatever a protected row refers to is carried by the
bundle or protected as well.

**Initialization** (`Initialize`, `Remap`). Emptying and refilling the tables around protected and locked rows,
removing the derived records of deleted rows and no others, and moving history to new ids. Whatever order the ids are moved in, every reference ends at its own replacement exactly
when no id that moves is sent to another id that moves; two rows that traded ids lose the history of one of them to
the other.

**Shared storage** (`BundleNames`, `BundleStore`, `Publishers`, `ProtocolStorage`, `ColdStorage`). File operations one
at a time with a crash between any two. Publications that follow one another under rising sequences refine one atomic
cell. `Publishers` interleaves the file operations of several writers: readers never go back exactly when publications
are kept apart. In the online protocol nothing keeps a grant's publication apart from the next writer's
(`LateGrant`); in cold standby they are, and the storage stays readable exactly under the conditions above. Names sort
by number exactly as long as the sequence fits twenty digits.

**Smaller machines**: the service lease (`ServiceLease`), and a Follower's configuration through the flat plugin
settings: mirrored, overlaid again, and settled after one round (`NativeSettings`).

## Reading notes

* A payload stands for its own SHA-256 hash: hashing is taken as collision free, and a hash can only be embedded in a
  payload made later. Two exports never give equal payloads, since a node never reserves a sequence twice and the
  source is part of the payload. The signature is taken as unforgeable: whatever verifies was exported.
* A step of the protocol is one block under the state lock, or the unlocked check before it. The background service
  is one actor per node; plugin actions are any number of others.
* `ImportBlock` follows `apply_latest` in letting a grant through whatever the import status was, but a cold takeover
  only when it was `applied`.
* The documentation of the import promises that a record created disabled stays local; with the settings a running
  service keeps it does not (`StaleSettingsSwitchOn`). The model follows the code.
* The results on references take the bundle after the follower's overrides: an override may point a reference
  anywhere, and nothing in the code looks. `CoherentImport` starts from Main's own tables and asks that overrides leave
  reference columns alone.
* The documentation promises that an abrupt kill never promotes the peer (`engine.py`, `export_on_shutdown`) and that
  returning nodes always begin as Followers of the newer authority (`docs/wiki/Operations-and-Planned-Handoff.md:24`).
  The code keeps neither promise: after a restart the old shutdown bundle is still the newest (`AbruptStopPromotes`),
  and a node whose lost reservation took the number the newer writer used keeps its role (`ReturnIgnoresWriter`).
* A conflicting or failing import leaves the tables as they were: the database transaction is all or nothing.

## Model

| member | source | states |
|---|---|---|
| HandoffScenarios.AuthorityIsExclusive | failovarr/engine.py:551-654 | over all runs at most one node is authoritative, exactly when overlapping operations and conflicted grants are not both allowed |
| HandoffScenarios.SequencesIncrease | failovarr/engine.py:103-154 | over all runs the bundles of both nodes, lost ones included, have strictly increasing sequences, exactly when every accepted grant was applied and no overlapping export takes its sequence after the authority it checked is gone |
| HandoffScenarios.WritersChangeByGrant | failovarr/engine.py:998-1022 | where sequences increase, a bundle that follows one of the other node follows a grant |
| HandoffScenarios.ClientsSeeOneNode | failovarr/engine.py:800-802 | at most one node reports itself ready for clients wherever authority is exclusive |
| HandoffScenarios.ConflictRepeatsSequence | failovarr/engine.py:640-651 | a run in which a conflicted grant lets two nodes use one sequence |
| HandoffScenarios.OverlapRepeatsSequence | failovarr/engine.py:103-111 | a run in which an export checked before the surrender publishes after it, under the peer's sequence |
| HandoffScenarios.OverlapAndConflictSplitAuthority | failovarr/engine.py:917-929 | a run with two authoritative nodes when both are allowed |
| HandoffRuns.GrantIssuerIsPassive | failovarr/engine.py:975-1027 | a grant that its target has not overtaken comes from a node without authority |
| HandoffRuns.GrantMovesNoData | failovarr/engine.py:1029-1053 | a grant is let through only right after its preparation bundle was applied, and carries exactly that bundle's domains |
| HandoffRuns.ReplaySafety | failovarr/engine.py:190-219 | along any run applied sequences never decrease, import histories only grow, and no two different bundles are applied under one sequence |
| HandoffRuns.ImportsAreNew | failovarr/engine.py:198-218 | a bundle is imported only if it is newer than all the node exported or applied, or is the one applied last |
| HandoffRuns.ExportCarries | failovarr/engine.py:107-136 | an export step adds one bundle: the rows of the event, the handoff of its operation and the next sequence, which is reserved |
| HandoffRuns.GrantCarries | failovarr/engine.py:1037-1053 | a grant step adds one bundle: the rows of the preparation, a grant that names it and the next sequence |
| HandoffRuns.TakenAgain | failovarr/engine.py:206-218 | after any import step the bundle it imported passes again only by force under the scope it was imported with, or without force under another |
| HandoffRuns.ReachableInductive | failovarr/engine.py:103-1053 | every reachable state satisfies the protocol's invariants |
| HandoffSafety.StepSound | failovarr/engine.py:103-154 | every step keeps what is known of exports, grants and operations in flight |
| HandoffSafety.StepSerial | failovarr/engine.py:551-654 | every step of non-overlapping operations keeps: grants in flight have passive issuers, operations their standing, authority one holder |
| HandoffSafety.StepToken | failovarr/engine.py:975-1053 | with applied grants only, every step keeps authority in one place: a node, a surrendered service, a grant under way or one about to be accepted |
| HandoffSafety.StepRanked | failovarr/engine.py:107-135 | with applied grants and exports that still have their authority, every step keeps all sequences increasing, at or below what the holder of authority builds on, and bundles of different nodes apart by a grant |
| HandoffSafety.GrantIsNew | failovarr/engine.py:574-582 | a grant the import block lets through is newer than all the node knows and names its last applied bundle |
| HandoffLoss.LostExactly | failovarr/engine.py:656-1053 | authority that is somewhere is nowhere after an event exactly for a crash or error between surrender and grant or between a grant's import and its acceptance, a grant that cannot repeat its preparation or is only reserved, and an initialization from the grant |
| HandoffLoss.LostForever | failovarr/engine.py:917-929 | once authority is nowhere no node is authoritative, then or in any later state |
| HandoffLoss.CrashLosesAuthority | failovarr/engine.py:1006-1022 | a run whose crash after the surrender leaves authority nowhere |
| Bundle.NoSelfReference | failovarr/bundle.py:20-58 | no grant names its own hash |
| Replication.ReplicationEngine.Publish | failovarr/engine.py:128-145 | the sequence is reserved whatever follows; the copies are written in order, as far as publication gets |
| Replication.ReplicationEngine.ExportNow | failovarr/engine.py:103-160 | only the authority exports; the bundle carries this node, the rows and the handoff given and one more than the larger sequence known, and goes to the outbound copy and, where there is one, to shared storage; an error leaves the sequence used up |
| Replication.ReplicationEngine.ExportAfterSurrender | failovarr/engine.py:1029-1053 | the grant goes to the peer with the next sequence and the prepared domains, provided that bundle is still outbound, and nothing is reserved otherwise |
| Replication.ReplicationEngine.VerifiedCandidate | failovarr/engine.py:190-219 | which candidate is let through: never an own bundle, a forced one only when it is the one applied last, under the same scope, an old one only when that scope has changed, and any by inspection |
| Replication.ReplicationEngine.AcceptHandoffGrant | failovarr/engine.py:908-929 | a grant of one's own is refused; any other makes the node authoritative before its endpoint is enabled; for which kinds of access clients come at once, and when the call fails late |
| Replication.ReplicationEngine.ApplyLatest | failovarr/engine.py:551-654 | result and whole new state of an import, for every candidate, mode and outcome: what is imported is remembered with its sequence, hash, source and scope, so that at once the same bundle passes only by force under that scope, or without force under another; which imports earn authority; no known sequence gets lower |
| Replication.ReplicationEngine.InitializeFollower | failovarr/engine.py:656-722 | result and new state of an initialization, remembered like an import; a handoff in the bundle has no effect |
| Replication.ReplicationEngine.RequestHandoff | failovarr/engine.py:858-875 | a handoff is queued exactly on an authoritative node with a peer and none in progress |
| Replication.ReplicationEngine.Prepare | failovarr/engine.py:979-996 | without authority nothing happens; otherwise the preparation goes to the outbound copy and to storage as far as publication gets, and is recorded once it is out |
| Replication.ReplicationEngine.HandOver | failovarr/engine.py:1006-1027 | the node ends without authority and without clients whether or not the grant got out, and the copies hold the grant as far as it did |
| Replication.ReplicationEngine.ProcessHandoff | failovarr/engine.py:975-1027 | a grant is issued only for a preparation the peer has confirmed, with the next sequence and the prepared domains, by a node that then has neither authority nor clients; state and both copies in every phase |
| Replication.ReplicationEngine.ExportOnShutdown | failovarr/engine.py:877-897 | the final export carries the rows given and a shutdown handoff exactly in cold standby with a peer, goes as far as publication gets, and leaves the node its authority |
| Replication.ReplicationEngine.RecoverColdStandby | failovarr/engine.py:944-973 | the node steps down and imports exactly when it sees a newer bundle of its peer |
| HandoffCalls.ExportCall | failovarr/engine.py:103-160 | an export call is a sequence of enabled steps of the two-node machine and ends in the state `ExportNow` promises, wherever publication stops |
| HandoffCalls.RequestCall | failovarr/engine.py:858-875 | so is a request, as `RequestHandoff` promises |
| HandoffCalls.ServingCall | failovarr/engine.py:817-845 | switching the client endpoint off anywhere, or on at the authority, is an enabled step that changes nothing else |
| HandoffCalls.PrepareCall | failovarr/engine.py:979-996 | so is the preparation of a handoff, as `Prepare` promises |
| HandoffCalls.HandOverCall | failovarr/engine.py:998-1027 | so is the surrender with its grant, as `HandOver` promises |
| HandoffCalls.ApplyCall | failovarr/engine.py:551-654 | so is an import with any outcome and the handoff it carries out, as `ApplyLatest` and `InitializeFollower` promise |
| ColdStandby.WriterIsCurrent | failovarr/engine.py:944-973 | a started node with authority knows a sequence at least as high as every published one |
| ColdStandby.OnlyShutdownPromotes | failovarr/engine.py:931-942 | authority is only gained from the peer's shutdown bundle, applied last and still the newest |
| ColdStandby.StepConsistent | failovarr/engine.py:877-973 | every step of an orderly run keeps sequences increasing, reservations and hashes in line with what was published, and every operation the standing it checked |
| ColdStandby.StaysPassive | failovarr/engine.py:950-961 | without a publication no step makes an unpromotable passive node authoritative or promotable |
| ColdStandby.ExportCarries | failovarr/engine.py:877-897 | an export adds one bundle: the rows of the event, the next sequence and the handoff of its kind, a shutdown only for a stop |
| ColdStandbyRuns.PublishedSequencesIncrease | failovarr/engine.py:877-973 | published sequences increase over all runs exactly when starts can read storage and neither a graceful stop nor another export publishes on a check made before recovery had ended |
| ColdStandbyRuns.ReturnRepeatsSequence | failovarr/engine.py:950-967 | for each condition that is not met: a run in which the returning former writer repeats a sequence |
| ColdStandbyRuns.StaleReturn | failovarr/engine.py:103-111 | an export checks its authority, recovery gives authority up, and the export publishes all the same |
| ColdStandbyRuns.PromotedExactly | failovarr/engine.py:640-653 | a passive node can become authoritative although nothing is published, exactly when the newest bundle is the peer's shutdown bundle for it and is newer than all it knows or the one it applied last |
| ColdStandbyRuns.AbruptStopPromotes | failovarr/engine.py:877-884 | a run in which a writer is restarted and killed before it publishes again, and the peer is promoted |
| ColdStandbyRuns.ReturnsFollow | docs/wiki/Operations-and-Planned-Handoff.md:24-25 | a started node with authority has read the newest bundle, its own or applied, in every reachable state exactly when all four conditions are met |
| ColdStandbyRuns.ReturnIgnoresWriter | failovarr/engine.py:957-961 | for each condition that is not met: a run in which a started node keeps authority next to a bundle it never read |
| Planner.PlanRecords | failovarr/planner.py:77-162 | which lists are refused, and the plan of all others |
| Planner.FindDuplicate | failovarr/planner.py:92-100 | incoming rows are refused exactly when a non-null key value repeats |
| Planner.JudgeRows | failovarr/planner.py:113-155 | the creations, updates and conflicts of the incoming rows in order of their ids |
| Planner.FirstTaken | failovarr/planner.py:117-134 | the first key of a row whose value another id holds |
| Planner.FindLeftover | failovarr/planner.py:157-160 | the rows without an incoming counterpart, in order of their ids |
| Planner.TakenMeansClash | failovarr/planner.py:106-134 | a row is refused by the key lookup exactly when some stored row of another id clashes with it |
| Planner.TakenNames | failovarr/planner.py:117-134 | a refusal names the first key whose value another stored row holds, and that row |
| Planner.ValueCount | failovarr/planner.py:93-97 | a set of values is as large as its list exactly when no two rows clash |
| Planner.SortSorts | failovarr/planner.py:113-113 | sorting by id is an ascending permutation |
| Transaction.Database.Insert | failovarr/domains.py:719-726 | one row more under a free id, and the state after it recorded |
| Transaction.Database.Update | failovarr/domains.py:727-736 | one stored row with changed columns, and the state after it recorded |
| Transaction.Database.Delete | failovarr/domains.py:738-742 | one row fewer, and the state after it recorded |
| Transaction.Database.InsertAll | failovarr/domains.py:719-726 | a table's new rows come under free ids; the record leads on to the final state a row at a time, each state a mixture of stored and desired rows |
| Transaction.Database.UpdateAll | failovarr/domains.py:727-736 | after the updates the table is the stored rows overlaid with the desired ones, each step recorded |
| Transaction.Database.Prune | failovarr/domains.py:738-742 | after the deletions the table is final, rows of later tables being final before, each step recorded |
| Transaction.Database.Apply | failovarr/domains.py:716-742 | fitting plans bring every table to its outcome; the record leads from the stored tables to it, consecutive states differing in one row and all of them states the safety lemmas cover |
| ImportSafety.PlanFits | failovarr/planner.py:113-160 | a plan without conflicts takes the stored rows exactly to the desired ones |
| ImportSafety.PlanExactly | failovarr/planner.py:103-162 | for all lists that are not refused: a plan creates exactly the unopposed rows that are not stored, changes exactly the unopposed stored ones that differ, in the columns that do, deletes exactly the others where allowed, and reports of each opposed row the first taken key with its holder, or else the changed identity |
| ImportSafety.PlanInOrder | failovarr/planner.py:113-160 | every part of a plan is in order of ids |
| ImportSafety.CleanExactly | failovarr/planner.py:113-148 | a plan is free of conflicts exactly when no desired row clashes with another id's stored row and no stored id changes its natural identity |
| ImportSafety.RefusedExactly | failovarr/planner.py:117-148 | the same for a single row |
| ImportSafety.PlanIsMinimal | failovarr/planner.py:149-155 | updates concern exactly stored rows that differ, in exactly the columns that do |
| ImportSafety.CreatesDistinct | failovarr/planner.py:137-139 | no id is created twice |
| ImportSafety.CleanPlanCompatible | failovarr/planner.py:117-134 | without conflicts no desired row clashes with another id's stored row |
| ImportSafety.MixtureUnique | failovarr/domains.py:716-742 | any mixture of stored and desired rows keeps a key unique |
| ImportSafety.BetweenUnique | failovarr/domains.py:716-742 | in every state of the transaction a non-null key value has at most one holder |
| ImportSafety.NoDanglingReference | failovarr/domains.py:716-742 | every state of the transaction is free of dangling references exactly when its outcome is |
| ImportSafety.UpgradingClosed | failovarr/domains.py:717-736 | creations and updates in domain order leave no dangling reference |
| ImportSafety.PruningClosed | failovarr/domains.py:738-742 | deletions in reverse order leave none either |
| ImportSafety.MergedClosed | failovarr/domains.py:716-736 | the tables before deletions are closed exactly when all desired references resolve there |
| Domains.ApplyLocalOverrides | failovarr/domains.py:254-292 | of each row: an object under its id's decimal spelling is merged into it whatever stands under its identity's; only where nothing stands there the entry under the identity counts; with neither the row is unchanged; refused exactly when an entry that stands for a row is no object, names the id or an unknown column |
| Domains.FindOverride | failovarr/domains.py:267-275 | which entry stands for a row |
| Spelling.DecimalReadsBack | failovarr/domains.py:267-267 | the spelling of an id reads back as the id |
| Spelling.CompositesDiffer | failovarr/domains.py:269-275 | different composite identities are spelled differently |
| Spelling.SingleSpelling | failovarr/domains.py:270-275 | a text identity of one column is its own spelling, a number reads back |
| Domains.PrepareDesired | failovarr/domains.py:295-340 | the desired rows: of each incoming row the stored one with its id if that is protected, else the row after its override, disabled if it is new and the policy says so; then exactly the stored protected rows Main does not carry |
| Domains.ValidateRecords | failovarr/domains.py:343-409 | one pass with the values seen so far accepts exactly the lists in which no record has a column too many or missing, a wrong lifecycle, an id below one, a blank name or an incomparable key column, and no id and no non-null key value repeats |
| Domains.HoldBackBlocked | failovarr/domains.py:444-449 | records waiting for a decision leave the creations and become conflicts |
| Domains.GuardLocked | failovarr/domains.py:450-463 | updates and deletions of locked rows become conflicts |
| Domains.TruthyExactly | failovarr/domains.py:450-451 | a row is locked exactly when its column holds anything but null, false, zero or an empty text, list or object |
| Domains.PlanRestrains | failovarr/domains.py:444-463 | a domain's plan is the planner's own without updates and deletions of locked rows and creations that wait for a decision; a lock is a conflict exactly when the planner alone would change a stored row that is locked in its column, a new record exactly when it waits |
| Domains.PlanDomain | failovarr/domains.py:421-464 | a domain's plan, restrained as above, or its refusal: exactly for invalid incoming or desired records or a refused override |
| Domains.DesiredDistinct | failovarr/domains.py:314-324 | preparation keeps the incoming ids in place and appends other, protected ones |
| Domains.SparedRows | failovarr/domains.py:318-324 | exactly the stored protected rows Main does not carry are kept in the desired rows |
| Domains.DesiredIds | failovarr/domains.py:305-324 | preparation aims for the incoming ids and the stored protected ones, and no others |
| Merge.DeepMerge | failovarr/config.py:567-574 | the merge loop computes the recursive merge: at every path the override's value if it gives one, else the base's |
| Merge.OverrideWins | failovarr/config.py:567-574 | whatever the override gives at a path is in the merge, at its place |
| Merge.BaseRemains | failovarr/config.py:567-574 | whatever the base has at a path the override does not touch is in the merge as well |
| Merge.MergeTwice | failovarr/config.py:567-574 | merging an override again changes nothing |
| DomainImport.SelectDomains | failovarr/domains.py:412-424 | refused exactly when a configured domain is missing or another is there; otherwise each domain gets its own rows of the bundle |
| DomainImport.PlanDomains | failovarr/domains.py:412-465 | a bundle is refused exactly when a domain is missing or unexpected or the rows of one are refused |
| DomainImport.ImportReaches | failovarr/domains.py:412-465 | a conflict-free domain plan fits its goal and leaves every key unique |
| DomainImport.LockedKept | failovarr/domains.py:450-463 | a conflict-free import leaves every row locked in its column as it is |
| DomainImport.LocksHoldBetween | failovarr/domains.py:716-742 | every locked row is in place in every state of the transaction |
| DomainImport.ProtectedKept | failovarr/domains.py:305-324 | a conflict-free import leaves every protected row as it is, whether or not Main carries it |
| DomainImport.UntouchedBetween | failovarr/domains.py:716-742 | a row that is the same before and after the transaction is the same in every state of it |
| DomainImport.NewRecordsFollowPolicy | failovarr/domains.py:326-340 | records the follower lacks come from the bundle, are created disabled under the disabling policy, and not at all under the blocking one |
| DomainImport.Commit | failovarr/domains.py:716-742 | the transaction imports every domain; every recorded state on the way is one of the transaction and breaks no key |
| DomainImport.ApplyDomains | failovarr/domains.py:699-768 | a refused or conflicting bundle changes nothing; any other brings every table to its goal, a recorded row at a time, every key unique and every locked row in place in every state |
| Reimport.ReimportExactly | failovarr/domains.py:295-340 | after an import or an initialization, importing the same bundle again plans nothing exactly when every record created disabled is protected or disabled at its source |
| Reimport.ReimportIsNoOp | failovarr/engine.py:724-768 | with the reloaded settings it is accepted and plans nothing |
| Reimport.ReimportAll | failovarr/domains.py:699-768 | the same for all domains at once |
| Reimport.ImportAfterInitialization | failovarr/engine.py:702-717 | after an initialization an import of the same bundle under reloaded settings is accepted and plans nothing in any domain |
| Reimport.CreatedArePlanned | failovarr/domains.py:756-761 | the ids an import reports as created are exactly those its outcome has and the follower had not |
| Reimport.StaleSettingsSwitchOn | failovarr/engine.py:69-71 | with the settings of before, the next import changes a record the last one created disabled |
| Reimport.PreparedTwice | failovarr/domains.py:314-339 | a prepared and stored row is prepared to itself, exactly unless it was created disabled and is neither protected nor disabled at its source |
| Reimport.RelationSettles | failovarr/planner.py:39-74 | a relation's second preparation finds every row under the id the first chose |
| HandoffImport.GrantPlansNothing | failovarr/engine.py:998-1022 | in every reachable state a grant that is let through plans nothing on tables as the last import or initialization left them |
| Reconcile.ReconcileSurrogateIds | failovarr/planner.py:39-74 | the allocation loop gives known identities the local id, others their own if free, else the next id above all |
| Reconcile.NewIdExactly | failovarr/planner.py:61-74 | a row gets the id of a stored row with its identity, else its own if no stored row has it, else the next above all ids of either side and all given out before |
| Reconcile.SkipTaken | failovarr/planner.py:68-70 | the inner search finds the first id that is neither stored nor given out |
| Reconcile.ReconciledIdsDistinct | failovarr/planner.py:61-74 | reconciled ids are distinct exactly when no two incoming rows claim one stored row |
| Reconcile.ReconciledNeverConflicts | failovarr/domains.py:432-443 | planning reconciled rows never conflicts |
| Reconcile.MirroredContents | failovarr/domains.py:435-441 | mirrored, the relation ends with exactly the incoming contents |
| Initialize.PreservedIds | failovarr/domains.py:499-526 | a stored row is kept exactly when it is protected, or locked and desired as it is; it is in the way exactly when it is locked and not kept |
| Initialize.KeptAgree | failovarr/domains.py:499-526 | kept rows are desired as they are, and every protected or locked row is kept |
| Initialize.Inspect | failovarr/domains.py:791-813 | initialization is refused exactly for invalid records or refused overrides, and disputed exactly when a record waits for a decision or a locked row would change |
| Initialize.PlanExternal | failovarr/domains.py:540-627 | every outside relation is decided, and a conflict is reported exactly when one has none but that |
| Initialize.InWayExactly | failovarr/domains.py:564-627 | a relation is a conflict exactly when a record of it refers to a deleted row and is neither derived nor history that may be shared and has a desired row to follow |
| Initialize.ReferenceFollows | failovarr/domains.py:862-866 | where one reference ends: unchanged if its row is not deleted, else at a desired row, the one with the same natural identity unless ids are traded |
| Initialize.Carries | failovarr/domains.py:854-866 | the same for a whole relation, and which records are removed |
| Initialize.Empty | failovarr/domains.py:868-873 | a table keeps exactly its kept rows, each deletion recorded |
| Initialize.Fill | failovarr/domains.py:875-885 | the table becomes the desired rows, each inserted under a free id and recorded |
| Initialize.Replace | failovarr/domains.py:868-885 | all tables become their desired rows, the record leading there a row at a time through midway states |
| Initialize.MidwaySafe | failovarr/domains.py:868-885 | in every state keys are unique and every protected or locked row is in place |
| Initialize.InitializeDomains | failovarr/domains.py:771-926 | when initialization is refused, disputed or a record outside the scope can neither go nor follow, nothing changes; otherwise every table ends as desired, a recorded row at a time, locked rows in place in every state; outside the scope exactly the derived records of deleted rows are removed, every reference to another row stays, and each record of history refers to a desired row, the one with the natural identity it pointed to unless ids are traded |
| Initialize.NoReferenceLost | failovarr/domains.py:854-866 | once initialized, every record outside the scope refers to a desired row |
| Remap.PlanRelation | failovarr/domains.py:575-627 | untouched relations are left alone, derived ones purged, history with all targets moved, everything else a conflict |
| Remap.MoveReferences | failovarr/domains.py:862-866 | bulk updates, one after the other, take each reference where the fold over them does |
| Remap.SequentialIsSimultaneous | failovarr/domains.py:862-866 | updates in a given order move every reference to its own replacement exactly when no target is the source of a later one |
| Remap.MovesAreSafe | failovarr/domains.py:597-618 | in whatever order ids are visited every reference ends at its own replacement, exactly when no moving id is sent to another moving id |
| Remap.NoReferenceLost | failovarr/domains.py:575-627 | after any decision but a conflict a reference leads to a desired row or was purged |
| Remap.SwapCollapses | failovarr/domains.py:597-618 | for tables in which two rows trade ids, the planner may move the history of both to one of them |
| Remap.HistoryFollows | failovarr/domains.py:597-618 | unless moving ids collide, each reference to a replaced row ends at the desired row with the natural identity it pointed to |
| BundleNames.NamesSort | failovarr/remote_storage.py:34-43 | for sequences below 10^20 names sort by sequence and then digest, and differ when those do |
| BundleNames.NamesSortExactly | failovarr/remote_storage.py:34-43 | names of all sequences below a bound sort by number exactly up to the bound 10^20 |
| BundleNames.OverflowSortsFirst | failovarr/remote_storage.py:34-37 | the first name with twenty-one digits sorts before the last with twenty |
| BundleStore.RetainedBundleNames | failovarr/remote_storage.py:40-43 | the removable names are exactly those with three later ones |
| BundleStore.NewestName | failovarr/remote_storage.py:417-424 | the last sorted name has none after it |
| BundleStore.FilesystemBundleStore.Prune | failovarr/remote_storage.py:65-70 | exactly the removable files go, one recorded deletion at a time |
| BundleStore.FilesystemBundleStore.WriteLatest | failovarr/remote_storage.py:72-78 | file, pointer, pruning: the final state, and the trace that leads to it a file operation at a time through states a crash may leave |
| BundleStore.FilesystemBundleStore.ReadLatest | failovarr/remote_storage.py:80-86 | a reader gets the bundle the pointer leads to |
| BundleStore.FilesystemBundleStore.ReadOrNewest | failovarr/sftp_worker.py:126-151 | a tolerant reader gets that bundle, or else the newest complete one |
| BundleStore.PointerResolves | failovarr/remote_storage.py:72-78 | after publication the pointer resolves exactly when fewer than three stored names sort after the new one |
| BundleStore.AtomicPublication | failovarr/remote_storage.py:72-86 | wherever publishing a newer bundle is cut short, the pointer resolves and reads give the previous bundle or the new one |
| BundleStore.StorageIsACell | failovarr/remote_storage.py:46-86 | a run of interrupted publications refines one atomic cell |
| BundleStore.ReadersNeverGoBack | failovarr/remote_storage.py:72-86 | readers never see an older bundle after a newer one |
| BundleStore.NewestIsHighest | failovarr/remote_storage.py:408-426 | the newest name holds the highest stored sequence, at least what the pointer gives |
| BundleStore.PrunedExactly | failovarr/remote_storage.py:65-78 | a file is pruned exactly when three names sort after it |
| BundleStore.ReaderSurvives | failovarr/remote_storage.py:80-86 | a reader that has the pointer still finds the file while later names and publications in between number at most two |
| Publishers.KeptApartIsInTurn | failovarr/remote_storage.py:65-78 | every interleaving of file operations in which publications are kept apart is a run of interrupted publications, one after the other |
| Publishers.KeptApartIsReadable | failovarr/remote_storage.py:65-86 | kept apart, they keep the pointer resolving and readers moving forward after every file operation |
| Publishers.ForwardExactly | failovarr/remote_storage.py:72-86 | readers never go back exactly when no publication begins while another writer's is in progress, or there is one writer |
| Publishers.LateWriterGoesBack | failovarr/remote_storage.py:77-77 | a pointer moved after the next writer has published takes readers back |
| Publishers.LateWriterDangles | failovarr/remote_storage.py:65-78 | after three bundles of others it names a pruned file |
| ProtocolStorage.RunsKeepStorageReadable | failovarr/engine.py:132-151 | where sequences increase and publications are kept apart, the pointer always resolves and readers move forward, whatever the file operations |
| ProtocolStorage.HandoverTakesReadersBack | failovarr/engine.py:1048-1051 | where publications may overlap, a run can take readers back exactly when authority has changed hands, by a grant |
| ProtocolStorage.LateGrant | failovarr/engine.py:1048-1051 | a run without overlapping operations and with an applied grant: the peer publishes three bundles while the issuer still writes the grant into storage; readers go back, and the pointer ends at a pruned file |
| ProtocolStorage.StorageIsReadableExactly | failovarr/engine.py:132-151 | over all runs in which sequences increase, storage stays readable exactly when no publication begins before the one before has ended or been cut short |
| ColdStorage.ColdStorageReadable | failovarr/engine.py:877-973 | over all runs of a cold-standby pair, cut-short publications included, storage stays readable exactly when all four conditions are met |
| ColdStorage.LowBundleDangles | failovarr/remote_storage.py:65-78 | a bundle whose name sorts before three stored ones prunes its own file |
| DomainGraph.ExpandDomainDependencies | failovarr/config.py:446-457 | the growing loop ends with the least closed superset, in adapter order |
| DomainGraph.AddMissing | failovarr/config.py:450-456 | one pass adds only forced domains, and adds none exactly when the selection is closed |
| DomainGraph.ClosureIsLeast | failovarr/config.py:446-457 | the closure is closed and inside every closed superset |
| DomainGraph.ExpandedPasses | failovarr/config.py:716-722 | an expanded selection passes the closure check |
| DomainGraph.PassesIffExpanded | failovarr/config.py:716-722 | a supported selection passes the check exactly when expansion adds nothing |
| DomainGraph.ExpansionMonotone | failovarr/config.py:446-457 | selecting more never loses a domain |
| DomainGraph.ExpansionIdempotent | failovarr/config.py:446-457 | expanding twice changes nothing |
| DomainGraph.DependenciesAreReferences | failovarr/config.py:199-217 | the declared prerequisites are exactly the domains the replicated id columns refer to |
| DomainGraph.TargetsInScope | failovarr/config.py:716-722 | in a scope that passes the closure check every reference column's target is in scope |
| DomainGraph.CompleteExactly | failovarr/config.py:716-722 | all references of a scope can be followed exactly when it passes the closure check |
| DomainGraph.ReferencesGoBack | failovarr/domains.py:72-197 | in adapter order every reference of a scope leads to an earlier table |
| DomainGraph.ExportClosed | failovarr/domains.py:250-251 | what a coherent database exports for a scope, all its references considered, has no dangling one |
| ScopeImport.GoalOrigin | failovarr/domains.py:295-340 | every desired row has the references of an incoming row after overrides or of a protected stored one |
| ScopeImport.FinalIds | failovarr/domains.py:305-324 | a domain ends with the incoming ids, the protected stored ones and, unless it deletes, all other stored ones |
| ScopeImport.OutcomeClosed | failovarr/domains.py:716-742 | from a closed follower and a bundle closed after overrides the outcome is closed, exactly when deletions are not allowed everywhere or protected rows refer only to rows that stay |
| ScopeImport.ScopeStaysClosed | failovarr/domains.py:716-742 | the same for every state on the way, creations, updates and deletions included |
| ScopeImport.ProtectedRowDangles | failovarr/domains.py:318-324 | an import where the condition fails: Main has dropped the user agent of a protected stream profile and deletions are allowed; follower and bundle are closed, the planned outcome is not |
| ScopeImport.CoherentImport | failovarr/domains.py:699-742 | importing a coherent Main's export into a coherent follower, with overrides that leave references alone and without deletions or without protected rows, leaves no dangling reference in any state |
| ServiceLease.RedisKey.Acquire | failovarr/autostart.py:37-45 | the key is taken exactly when it is free or expired |
| ServiceLease.RedisKey.Refresh | failovarr/autostart.py:48-55 | the key is extended exactly for its living owner |
| ServiceLease.RedisKey.Release | failovarr/autostart.py:58-68 | the key is deleted exactly for its living owner |
| ServiceLease.TenuresAreDisjoint | failovarr/autostart.py:37-68 | in any timed interleaving of calls the tenures do not overlap |
| ServiceLease.OwnershipIsTenure | failovarr/autostart.py:37-68 | a token owns the key exactly if the last tenure is its own and not over |
| ServiceLease.StaleCallChangesNothing | failovarr/autostart.py:48-68 | no call with another token changes a lease its owner holds, an acquisition included |
| NativeSettings.OverlayIds | failovarr/node_config.py:158-176 | the loop over the visible settings: the last entry that names an id decides whether it is protected, and an id no entry names stays as it is |
| NativeSettings.KeyReadsBack | failovarr/node_config.py:162-168 | a printed key is read back as its id, in its own domain only |
| NativeSettings.SnapshotAdds | failovarr/node_config.py:184-199 | overlaid on any ids, a snapshot adds exactly the protected ids it was made from |
| NativeSettings.ProtectionRoundTrip | failovarr/node_config.py:104-199 | overlaying a configuration's own snapshot changes no protected id, and on an empty one restores them all |
| NativeSettings.OverlayChoices | failovarr/node_config.py:119-141 | the loop over check boxes: on a Follower that shows any, a choice with a box follows it, one without keeps its state, in the list's order; otherwise the list stays as it is spelled |
| NativeSettings.NativeOverlay | failovarr/node_config.py:104-181 | the overlay as a whole: what becomes of every field, selection and protected record, the content preset, the older list of output profiles, and what the redundancy mode decides |
| NativeSettings.NormalizedModes | failovarr/config.py:243-274 | how the redundancy mode is read off the older fields, and what each mode makes of deployment, client access and automation |
| NativeSettings.NativeSettingsSnapshot | failovarr/node_config.py:184-199 | the written mirror shows no hidden field, a box for every choice and a switched-on key for exactly the protected records |
| NativeSettings.SecretsStay | failovarr/node_config.py:107-109 | no overlay touches a secret or any other field it does not show |
| NativeSettings.RoundTrip | failovarr/node_config.py:104-199 | a Follower's own mirror overlaid on its configuration loses nothing: fields stay, selections come in order or as the preset, protection is the same |
| NativeSettings.OverlaySettles | failovarr/node_config.py:104-199 | and a second round changes nothing |
| NativeSettings.SettledExactly | failovarr/node_config.py:104-199 | its own mirror changes nothing of a configuration exactly when that is settled |

## Left out

- User accounts: their encryption, validation and import are not part of this model.
- Cryptography, JSON text and the envelope format: see the reading notes; format upgrades, bundles without a scope and the fingerprint of client identities are not modelled.
- The global M3U hash-key comparison: its verdict is the outcome `Mismatched`.
- HTTP servers, the Setup Assistant, plugin actions, the network address itself (ARP, `ip`): an address is taken or refused.
- Django: what a deletion does to rows that refer to the deleted one (cascades, nulls, errors), sequence resets, schedulers and caches; tables are maps, and a statement over many rows is a row at a time.
- Rows of the core settings table outside the selected keys: the planner never sees them, and the model's table has only selected ones.
- HandoffCalls.ApplyCall: a grant let through although the import reported conflicts needs a regime that allows it; the calls of cold standby, `ExportOnShutdown` and `RecoverColdStandby`, are not calls of the online machine, and `ColdStandby` steps by the functions they are stated with.
- ColdStandby.StepConsistent: a requested handoff publishes its preparation like any export; its record, and the grant, need the peer's answer and so a second running node.
- ProtocolStorage.StorageIsReadableExactly: that a publication's file operations lie inside its export block is not part of the statement; in `LateGrant` the issuer is still in that block, as its operation in flight says.
- Replication.ReplicationEngine.ApplyLatest: a failure after the database commit, while the new protection is saved, counts as an import that was not recorded; the tables then hold the bundle although the state does not say so.
- Domains.ApplyLocalOverrides: a composite identity is spelled for nulls, booleans, integers and text, the values natural keys have.
- Domains.ValidateRecords: which texts are times with a zone is a parameter of the specification, blank text is blanks, tabs and line ends, and values compare as JSON values (Python's `True == 1` is not reproduced).
- Reimport.ReimportIsNoOp: relations with surrogate ids are covered when their natural key is their only key and never null, as the one such relation has it, and carry no protection or policy, which the code does not offer for it.
- Initialize.InitializeDomains: foreign keys are deferred during the transaction, so references among its states are not constrained; the reset of lookups that raise errors for a relation is left out.
- Remap.PlanRelation: the counts and labels in the report.
- BundleStore.FilesystemBundleStore.WriteLatest: temporary files and foreign files in the bundle directory; a rename is one step and durable.
- WebDAV, S3, SFTP and SMB stores: foreign calls; their order of steps is that of the filesystem store, SFTP adding a read-back before pruning.
- ServiceLease: the stop and flush keys, and the two-second polling that makes a worker notice a lost lease.
- NativeSettings.NativeOverlay: ids are plain decimals, without the signs, blanks and underscores Python's `int` accepts; roles are in lower case, lists are parsed already, and a switch is a boolean or one of the words `as_bool` knows.
- Role or name changes during a run, cold standby with both nodes running, and automatic promotion, which the code does not promise.
