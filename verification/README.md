# MengXia in Dafny

MengXia is a local daemon and command line for asset management. This project models the parts of it
whose correctness rests on an argument rather than on a glance, and proves that argument:

- **Wire preflight.** An iterative scanner with 64 stack slots decides, before decoding, whether a
  protobuf payload is well formed and shallow enough. It is proved equal to a recursive validator, the
  accepted payloads are characterised as serialised message trees, and the depth computed from the
  descriptor at build time is proved to be the exact run-time bound (`Varint`, `Descriptor`,
  `Preflight`, `WireTree`).
- **External commands.** Asset ingest and materialization are modelled as the steps of any number of
  concurrent calls over one durable command ledger, with store failures, dropped futures, jobs that
  outlive their callers, other commands, the startup pass and restarts in any order. Inductive
  invariants carry the promises over whole runs, and what each call comes to is proved from the events
  it meets (`Ledger`, `IngestReplies`, `Admission`, `IngestProtocol`, `IngestRuns`, `IngestOutcomes`,
  `MaterializeProtocol`, `MaterializeRuns`, `MaterializeOutcomes`, `Startup`).
- **Request digests.** The preimages that bind a command id to a request are proved injective, down to
  the three-level revision graph (`Encoding`, `Requests`, `Commands`).
- **Cursors and reports.** Four opaque cursors with their strict decoders, the verification run and its
  report ring, the paging of a report and what the command line renders of it (`Cursors`, `Verification`,
  `IssuePaging`, `Rendering`).
- **Smaller cores.** Saturating metrics, the canonical configuration document, the revision graph of
  the command line, the SQLite stop control, ratios in lowest terms (`Metrics`, `Config`, `ConfigKeys`,
  `CommandLine`, `InterruptControl`, `Ratio`).

Code that updates state in place is a class with fields or a method over an array; code that loops is a
method with a loop; the rest is functions. Each such method is proved against a function or a property
of its own, and the lemmas are about that function. SHA-256 is a parameter `hash`; nothing is assumed of
it beyond the length of its result. Identities in the protocols are numbers, store runtimes are numbers
that grow with each restart, and a Rust panic is a result of its own.

Three promises do not hold as they are usually put, and the project says exactly when they do:

- An inspection cursor reads back exactly when its member ordinal is at most 4095. The position type and
  the encoder accept larger ordinals, which the decoder rejects (`Cursors.InspectReadsBack`,
  `Cursors.LargeOrdinalIsLost`).
- A materialization claim may be left without a holder behind an open gate. Its guard is made after the
  claim returns, so exactly a claim granted to a call that had been dropped strands its row, until a
  restart; an embedder that lets a call run while it waits for its claim strands nothing
  (`MaterializeRuns.StrandedExactly`, `MaterializeRuns.StrandingStep`,
  `MaterializeRuns.NothingIsStranded`, `MaterializeRuns.StrandedStays`,
  `MaterializeRuns.SomeClaimIsStranded`). The daemon is such an embedder: it drives the call under
  `block_on` (bins/mengxiad/src/main.rs:2892-2894).
- The command line renders the summary of a verification exactly when there is no fatal issue or the
  first one's ordinal is within the number stored: the first fatal issue is kept even when it is not
  stored (`Rendering.SummaryRenders`, `Rendering.SoundSummaryRenders`,
  `Rendering.SomeSummaryIsRefused`).

Smaller edges of the same kind are `Cursors.CreativeReadsBack`, `Cursors.IssueNilLibrary` and
`Verification.OrdinalsConsecutive`.

## Model

| member | source | states |
|---|---|---|
| `Varint.ReadVarint` | crates/mengxia-core-proto/src/lib.rs:702-719 | the reading loop answers what the reference reader answers, advances by the bytes it took, and has no exit behind its ten turns |
| `Varint.ParseExact` | crates/mengxia-core-proto/src/lib.rs:702-719 | a 64-bit value is read, with its length, if and only if its shortest base-128 encoding comes first (Base 128 Varints section of the Protocol Buffers encoding guide) |
| `Varint.ParseOnly` | crates/mengxia-core-proto/src/lib.rs:702-719 | whatever is accepted is a value below 2^64 in its shortest form; overlong and larger forms are rejected |
| `Descriptor.MessageDepth` | crates/mengxia-core-proto/build.rs:138-154 | the recursive walk ends on every edge list, leaves its stack as it was, and answers the longest embedding path, or panics because some path has 256 messages, a cycle included |
| `Descriptor.LongestIsAcyclic` | crates/mengxia-core-proto/build.rs:138-154 | a message with a longest embedding path reaches no cycle |
| `Preflight.Scan` | crates/mengxia-core-proto/src/lib.rs:637-700 | for every payload, root and limit the 64-slot stack scanner gives the verdict of the recursive validator, first error in document order, within its slots, and ends |
| `WireTree.AcceptedPayloads` | crates/mengxia-core-proto/src/lib.rs:637-700 | a payload is accepted if and only if it serialises a message tree that fits the descriptor and the limit |
| `WireTree.NeverExceeded` | crates/mengxia-core-proto/src/lib.rs:683-693 | if no embedding path exceeds the limit, no bytes at all are judged too deep |
| `WireTree.DepthIsExact` | crates/mengxia-core-proto/build.rs:48-118 | the depth computed at build time is at most the limit if and only if no payload exceeds it: the bound suffices and is tight |
| `Ledger.ClaimTells` | crates/mengxia-store-sqlite/src/asset_repository.rs:1195-1260 | an ingest claim is granted exactly on an absent row and otherwise answers what the row then says, touching no other row |
| `Ledger.CompleteTells` | crates/mengxia-store-sqlite/src/asset_repository.rs:1262-1346 | a completion changes exactly the caller's own claim, and answers what the row then says |
| `Ledger.FinishTells` | crates/mengxia-store-sqlite/src/asset_repository.rs:1480-1509 | recording a failure of either operation changes exactly the caller's own claim, and succeeds if and only if the row then has the record |
| `Ledger.ClaimsFollowObservation` | crates/mengxia-store-sqlite/src/asset_repository.rs:997-1065 | a materialization claim is granted if and only if it fits what is observed |
| `Ledger.MaterializationTells` | crates/mengxia-store-sqlite/src/asset_repository.rs:1067-1110 | completing a materialization succeeds if and only if the caller holds the row |
| `Admission.Registry.constructor` | crates/mengxia-app/src/ingest.rs:183-203 | the registry starts empty and consistent |
| `Admission.Registry.Acquire` | crates/mengxia-app/src/ingest.rs:467-499 | admits exactly an unbound id within both capacities, otherwise answers in progress, conflict or backpressure; count and bindings agree after it |
| `Admission.Registry.Drop` | crates/mengxia-app/src/ingest.rs:502-509 | removes the binding and the count together |
| `IngestProtocol.ActionKeeps` | crates/mengxia-app/src/ingest.rs:212-414 | every step of every call, store job and outside party keeps the invariant: bindings match calls, guards hold their rows, answers agree with the ledger, one ingest per id |
| `IngestRuns.RunKeeps` | crates/mengxia-app/src/ingest.rs:212-414 | the invariant holds in every state of every run |
| `IngestRuns.AtMostOneIngest` | crates/mengxia-app/src/ingest.rs:273-276 | over every run, restarts included, the blob store starts at most one ingest per command id |
| `IngestRuns.RecordedAnswersAgree` | crates/mengxia-app/src/ingest.rs:240-269 | all successes and all recorded failures under one id are one answer to one request |
| `IngestRuns.ReplayRepeats` | crates/mengxia-app/src/ingest.rs:736-746 | what a claiming call answered, code and retry advice included, is what every later claim of that command is answered, and the ledger stays |
| `IngestRuns.MismatchNeverActs` | crates/mengxia-app/src/ingest.rs:466-509 | while the registry or ledger binds an id to another digest, a request under it neither holds a claim, nor gets one in the next step, nor succeeds |
| `IngestRuns.MismatchIsTold` | crates/mengxia-app/src/ingest.rs:466-509 | over every run, once the registry refuses such a request or its claim runs, it answers a conflict without retry or is about to, until a restart |
| `IngestRuns.LedgerBindingStands` | crates/mengxia-store-sqlite/src/asset_repository.rs:1226-1260 | a ledger binding is for good: no later success carries another digest |
| `IngestRuns.ClaimsAreCovered` | crates/mengxia-app/src/asset_persistence.rs:70-90 | while the gate is open, a row claimed by the running store has a call that guards it and its binding in the registry; otherwise the writer has met a fatal error and is about to fail the runtime, or the runtime has been failed |
| `IngestRuns.ClaimsAreResolved` | crates/mengxia-app/src/asset_persistence.rs:97-135 | a call that obtained its claim is over only when its row is resolved or the runtime has been failed |
| `IngestRuns.RegistryIsBounded` | crates/mengxia-app/src/ingest.rs:482-494 | in every reachable state executions equal bindings and stay within both capacities |
| `IngestRuns.AnswersAreSendable` | bins/mengxiad/src/main.rs:3443-3452 | every answer of every run passes the encoder's matrix |
| `IngestRuns.RunRow` | crates/mengxia-store-sqlite/src/asset_repository.rs:1195-1268 | over every run a row keeps its operation and digest, and a resolved ingest row keeps everything |
| `IngestOutcomes.SuccessIsRecorded` | crates/mengxia-app/src/ingest.rs:269-352 | over every run with its actions: a call whose claim ran on an absent id, whose ingest stored, and whose completion ran has its row completed with the result it submitted, and once released that is its answer, both for good, whatever others do in between |
| `IngestOutcomes.IngestCanSucceed` | crates/mengxia-app/src/ingest.rs:212-414 | from every state a new call on an id neither bound nor recorded, with room in the registry, can be admitted, claim, ingest, complete and answer its result |
| `IngestOutcomes.SuccessWasSubmitted` | crates/mengxia-app/src/ingest.rs:269-352 | every success answered under an id was submitted before by a call on that id |
| `IngestOutcomes.FailureIsRecorded` | crates/mengxia-app/src/ingest.rs:354-414 | a stop, a storage error with a record, or a failing clock after the claim: once its finish ran the row has just that record, and once released the caller was told what goes with it |
| `IngestOutcomes.FailureCanBeRecorded` | crates/mengxia-app/src/ingest.rs:354-414 | from every state of every run such a failure can be recorded and answered |
| `IngestOutcomes.OtherwiseTheRuntimeFails` | crates/mengxia-app/src/asset_persistence.rs:97-135 | anything else that goes wrong under the guard fails the runtime and leaves without a response |
| `IngestOutcomes.ClaimIsTold` | crates/mengxia-app/src/ingest.rs:671-746 | a claim that runs on a recorded id is told what the row says, and changes nothing but a claim left by another runtime |
| `IngestOutcomes.ClaimErrorIsTold` | crates/mengxia-app/src/ingest.rs:700-733 | a claim the store turned down or failed at leaves with its error, under the code it has everywhere else |
| `IngestOutcomes.AdmissionIsTold` | crates/mengxia-app/src/ingest.rs:467-499 | a duplicate of a running request is told it is in progress, one beyond a capacity to come back, any other is admitted |
| `IngestOutcomes.EarlyIsTold` | crates/mengxia-app/src/ingest.rs:212-269 | a call turned away early, or stopped between admission and claim, answers just that |
| `IngestOutcomes.BindingsAreCalls` | crates/mengxia-app/src/ingest.rs:467-509 | over every run an id is bound exactly while a call on it is admitted and not over: no admission is lost or kept too long |
| `IngestOutcomes.DropLeavesTheJob` | crates/mengxia-app/src/asset_persistence.rs:70-135 | a call dropped at a store job gives back its admission and fails the runtime, and the job may still run with the effect it would have had |
| `IngestOutcomes.RestartRecovers` | crates/mengxia-store-sqlite/src/asset_repository.rs:1226-1260 | a restart opens the gate under a later runtime, keeps the ledger, and makes every claim there was an obligation |
| `IngestOutcomes.FatalClosesTheGate` | crates/mengxia-store-sqlite/src/lifecycle.rs:640-681 | a store job that fails fatally closes the gate, whoever waited for it |
| `MaterializeProtocol.ActionKeeps` | crates/mengxia-app/src/materialize.rs:182-353 | every step keeps the invariant: holders are unique and hold their rows, effects are licensed, answers agree with the ledger |
| `MaterializeRuns.RunKeeps` | crates/mengxia-app/src/materialize.rs:182-353 | the invariant holds in every state of every run |
| `MaterializeRuns.EffectsAreLicensed` | crates/mengxia-app/src/materialize.rs:297-347 | publishing begins only under this runtime's claim for the same request, cleaning up only behind a durable completion of it |
| `MaterializeRuns.SettledNeverPublishes` | crates/mengxia-app/src/materialize.rs:202-247 | once a command is completed or rejected its row never changes and no call ever holds its claim again |
| `MaterializeRuns.HolderIsUnique` | crates/mengxia-store-sqlite/src/asset_repository.rs:997-1065 | at any moment at most one call holds a command |
| `MaterializeRuns.AnswersAgree` | crates/mengxia-app/src/materialize.rs:202-243 | successes of a command return one stored result and exclude a recorded rejection |
| `MaterializeRuns.AnswersAreEncodable` | bins/mengxiad/src/main.rs:2965-2986 | every failure any run answers gets retry advice that passes the operation matrix, except exactly the internal error, an invalid transition and an exhausted revision, which end the connection |
| `MaterializeRuns.RejectionsAreStops` | crates/mengxia-app/src/materialize.rs:287-345 | over every run a row is rejected for good only with the code of a stop; every other recorded failure is an obligation to recover with a code recovery accepts |
| `MaterializeRuns.ReplayOnlyCleans` | crates/mengxia-app/src/materialize.rs:207-237 | over every run, from the moment a call replays a stored result it can only end, and no step of it touches the ledger or begins anything but a cleanup |
| `MaterializeRuns.GuardsResolve` | crates/mengxia-app/src/asset_persistence.rs:184-220 | a guard is given up only over a resolved row or a failed runtime |
| `MaterializeRuns.RecoveryIsPossible` | crates/mengxia-store-sqlite/src/asset_repository.rs:1017-1065 | for every obligation to recover, what is observed is what reacquiring accepts |
| `MaterializeRuns.ClaimsAreAccounted` | crates/mengxia-app/src/asset_persistence.rs:158-182 | behind an open gate a claim of the running store has its guard, or it was granted to a call that had been dropped |
| `MaterializeRuns.StrandedExactly` | crates/mengxia-app/src/asset_persistence.rs:158-182 | over every run, behind an open gate, a row has no holder if and only if this process ran the claim job of a dropped call on it and the job was granted, restarts apart |
| `MaterializeRuns.StrandingStep` | crates/mengxia-app/src/asset_persistence.rs:158-182 | behind an open gate a step takes a row from held to stranded if and only if it runs the claim job of a dropped call on it and the job is granted |
| `MaterializeRuns.NothingIsStranded` | crates/mengxia-app/src/asset_persistence.rs:158-182 | in a run in which no future on a command is dropped while it waits for its claim, no row of that command is stranded behind an open gate |
| `MaterializeRuns.StrandedStays` | crates/mengxia-store-sqlite/src/asset_repository.rs:1017-1065 | nothing but a restart frees such a row; after one it is a candidate for recovery |
| `MaterializeRuns.SomeClaimIsStranded` | crates/mengxia-app/src/asset_persistence.rs:158-182 | for every command there is a run without failure that strands it |
| `MaterializeOutcomes.ObserveSetsCourse` | crates/mengxia-app/src/materialize.rs:202-247 | an observation changes nothing, and by the row the call goes on to claim, replays, or answers at once |
| `MaterializeOutcomes.ObservedIsHeld` | crates/mengxia-app/src/materialize.rs:246-286 | over every run with its actions: a call that observed an absent row, an obligation or a claim another runtime left, submitted its claim and had it run on that row holds it |
| `MaterializeOutcomes.SuccessIsRecorded` | crates/mengxia-app/src/materialize.rs:297-352 | a call that held its row, published, and whose completion ran has its row completed with the result it submitted, and that is its answer, both for good, whatever others do in between |
| `MaterializeOutcomes.MaterializeCanSucceed` | crates/mengxia-app/src/materialize.rs:182-353 | from every state of every run a new call on such a row can observe, claim, publish, complete and answer its result: every obligation to recover can be met |
| `MaterializeOutcomes.SuccessWasSubmitted` | crates/mengxia-app/src/materialize.rs:346-352 | every success answered under an id, first or replayed, was submitted before by a call on that id |
| `MaterializeOutcomes.FailureIsRecorded` | crates/mengxia-app/src/materialize.rs:287-345 | a stop, a failed publication or a failing clock under the guard: once its finish ran the row has just that record and the caller was told its code; a stop is then refused for good, anything else is observed as a candidate for recovery |
| `MaterializeOutcomes.FailureCanBeRecorded` | crates/mengxia-app/src/materialize.rs:287-345 | from every state of every run such a failure can be recorded and answered |
| `MaterializeOutcomes.OtherwiseTheRuntimeFails` | crates/mengxia-app/src/asset_persistence.rs:184-220 | a job that fails under the guard, or a claim given up, fails the runtime, and the caller is told why |
| `MaterializeOutcomes.EarlyIsTold` | crates/mengxia-app/src/materialize.rs:187-285 | a failure before the claim is told as it is |
| `MaterializeOutcomes.ReplayGives` | crates/mengxia-app/src/materialize.rs:207-237 | a replay answers the stored result |
| `MaterializeOutcomes.DropLeavesTheJob` | crates/mengxia-app/src/asset_persistence.rs:158-220 | a call dropped at a store job leaves the job to run with the effect it would have had; only under the guard the drop fails the runtime |
| `MaterializeOutcomes.RestartRecovers` | crates/mengxia-store-sqlite/src/asset_repository.rs:958-995 | the same for materialization: every claim there was can be taken up |
| `MaterializeOutcomes.FatalClosesTheGate` | crates/mengxia-store-sqlite/src/lifecycle.rs:640-681 | a store job that fails fatally closes the gate, and nothing else does but a failure under the guard |
| `Startup.Store.constructor` | crates/mengxia-store-sqlite/src/asset_repository.rs:490-505 | the store under one runtime, facing one outside |
| `Startup.Store.Boundary` | crates/mengxia-store-sqlite/src/asset_repository.rs:442-457 | the largest command id, if there is any |
| `Startup.Store.ClassifyPage` | crates/mengxia-store-sqlite/src/asset_repository.rs:490-588 | a page settles or counts exactly the rows of an interval of ids with nothing in it to reject, says how far it reached, and changes nothing on an error; an error is a fault met outside, a row to reject, or an interval that does not exist |
| `Startup.Store.ClassifyClaims` | crates/mengxia-app/src/asset_persistence.rs:264-303 | the first pass settles every row up to the boundary, and a prefix of them when it stops early; it fails only on a fault met outside or a claim to reject |
| `Startup.Store.CountObligations` | crates/mengxia-app/src/asset_persistence.rs:264-303 | the second pass changes nothing and counts the obligations; it fails only on a fault met outside or an obligation to reject |
| `Startup.Store.Classify` | crates/mengxia-app/src/asset_persistence.rs:251-307 | without a fault from outside the pass succeeds if and only if no claim has this store's runtime and no claim or obligation is of another operation, and otherwise answers corruption; when it succeeds no claim is left, each became an obligation, nothing else changed, and the count is the number of obligations; stopped anywhere it leaves each row as it was or settled |
| `Requests.BuildPreimage` | crates/mengxia-app/src/creative.rs:142-162 | the digest's buffer is the preimage of operation and fields |
| `Requests.PreimageInjective` | crates/mengxia-app/src/creative.rs:142-162 | equal preimages have equal operations and equal field lists, whatever their number |
| `Requests.RevisionGraphBytes` | crates/mengxia-app/src/creative.rs:231-277 | the nested loops write the counted, length-prefixed graph |
| `Requests.CutGraph` | crates/mengxia-app/src/creative.rs:231-277 | the three-level graph encoding is uniquely decodable, alone or followed by anything |
| `Requests.AppendIds` | crates/mengxia-app/src/creative.rs:201-229 | the id loops write a count and the ids |
| `Requests.CutIds` | crates/mengxia-app/src/creative.rs:201-229 | counted id lists are uniquely decodable |
| `Requests.CanonicalExact` | crates/mengxia-domain/src/creative.rs:445-455 | a relationship set is accepted if and only if it is free of duplicates and small enough; two accepted inputs encode alike if and only if they have the same members |
| `Commands.RequestsInjective` | crates/mengxia-app/src/creative.rs:290-634 | two requests, of whatever operations, share a preimage only if they agree on every canonical field |
| `Commands.IngestInjective` | crates/mengxia-app/src/ingest.rs:511-550 | two ingest requests with one preimage agree on every field, and on the path as far as the selector hash does |
| `Commands.MaterializeInjective` | crates/mengxia-app/src/materialize.rs:403-428 | the same for materialization and its destination |
| `Commands.FamiliesDisjoint` | crates/mengxia-app/src/materialize.rs:403-416 | no preimage of one family is one of another |
| `Cursors.FillList` | crates/mengxia-app/src/asset_query.rs:224-251 | the encoder fills its array with the list layout or refuses |
| `Cursors.ListDecodes` | crates/mengxia-app/src/asset_query.rs:199-222 | a list cursor is accepted with a position if and only if it is that position's encoding |
| `Cursors.FillInspect` | crates/mengxia-app/src/asset_query.rs:327-364 | the encoder fills its array with the inspection layout |
| `Cursors.InspectIsCanonical` | crates/mengxia-app/src/asset_query.rs:253-325 | every accepted inspection cursor is the encoding of a valid position |
| `Cursors.InspectReadsBack` | crates/mengxia-app/src/asset_query.rs:296-299 | the encoding of a valid position decodes to it if and only if its ordinal is at most 4095 |
| `Cursors.LargeOrdinalIsLost` | crates/mengxia-ports/src/lib.rs:2317-2359 | a position the constructor accepts whose cursor the decoder rejects |
| `Cursors.FillCreative` | crates/mengxia-app/src/creative.rs:688-718 | the encoder fills its array with the creative layout |
| `Cursors.CreativeDecodes` | crates/mengxia-app/src/creative.rs:720-748 | a creative cursor is accepted with a position if and only if the position is valid and this is its encoding |
| `Cursors.CreativeReadsBack` | crates/mengxia-app/src/creative.rs:688-704 | the encoder does not check the position's numbers, so its cursor reads back if and only if they are valid |
| `Cursors.FillIssue` | crates/mengxia-app/src/verification.rs:458-477 | the encoder fills its array with the issue layout or refuses |
| `Cursors.IssueDecodes` | crates/mengxia-app/src/verification.rs:428-456 | an issue cursor is accepted with an ordinal if and only if it is that ordinal's encoding |
| `Cursors.IssueNilLibrary` | crates/mengxia-app/src/verification.rs:463-465 | the nil library, which no owner has, is the one the encoder refuses and the decoder does not |
| `Cursors.CursorsBind` | crates/mengxia-app/src/asset_query.rs:141-275 | the uses of an accepted cursor are exactly one, told by its clear fields: family, library, listing with its scope, report, asset and selected revision; an inspection may leave the revision out |
| `Verification.Run.constructor` | crates/mengxia-app/src/verification.rs:256-267 | a run starts with nothing recorded |
| `Verification.Run.RecordIssue` | crates/mengxia-app/src/verification.rs:336-361 | one finding, its counter moved before anything can fail |
| `Verification.RecordsExactly` | crates/mengxia-app/src/verification.rs:336-361 | after any findings, however many: the counter is their number up to its ceiling, the sound ones with a 32-bit place are accepted, the first 4096 of these are stored under their places, the fatal issue is the earliest accepted one, the flags say what occurred |
| `Verification.CleanRun` | crates/mengxia-app/src/verification.rs:336-361 | after sound findings the first 4096 are stored under ordinals 1, 2, 3, ... and the rest is only counted |
| `Verification.FatalIsEarliest` | crates/mengxia-app/src/verification.rs:353-356 | the fatal issue kept is the earliest one, stored or not |
| `Verification.OrdinalsConsecutive` | crates/mengxia-app/src/verification.rs:344-351 | stored ordinals are consecutive if and only if none of the findings they cover was refused |
| `Verification.SummaryIsAccepted` | crates/mengxia-ports/src/lib.rs:2967-2988 | what the summary insists on holds of the report of every run |
| `Rendering.SummaryRenders` | bins/mengxia/src/main.rs:2554-2594 | for every run, the command line renders the summary if and only if there is no fatal issue or the first one's ordinal is within the number stored |
| `Rendering.SoundSummaryRenders` | bins/mengxia/src/main.rs:2694-2696 | for sound findings that is the case if and only if none of those that have an ordinal is fatal, or one of the first 4096 is |
| `Rendering.SomeSummaryIsRefused` | bins/mengxia/src/main.rs:2694-2696 | a run of sound findings whose summary is not rendered |
| `Rendering.ReportRenders` | bins/mengxia/src/main.rs:2596-2643 | all issues of a report are rendered if and only if none of the findings they cover was refused |
| `Verification.ReportOwner.constructor` | crates/mengxia-app/src/verification.rs:205-226 | the owner starts idle and empty |
| `Verification.ReportOwner.Begin` | crates/mengxia-app/src/verification.rs:228-268 | refuses while a run is active, else takes the first of eight candidate ids that no kept report has |
| `Verification.ReportOwner.Finish` | crates/mengxia-app/src/verification.rs:373-415 | keeps the report, letting the oldest of four go, and ends the run |
| `Verification.ReportOwner.Drop` | crates/mengxia-app/src/verification.rs:418-426 | an abandoned run ends without a report |
| `Verification.HistoryIsOrderly` | crates/mengxia-app/src/verification.rs:228-426 | over every history of begin, finish and drop at most one run is active, the reports kept are the latest four in order, and their ids differ |
| `Verification.BeginsExactly` | crates/mengxia-app/src/verification.rs:228-268 | in every history an idle owner with a candidate it can take begins under it, without one says that ids are unavailable, and an active one asks to come back |
| `Verification.ConcludesExactly` | crates/mengxia-app/src/verification.rs:373-426 | in every history a run that ends with its snapshot bound has its report kept as the latest, otherwise leaves none, and the owner is idle again |
| `Verification.ChosenIsFirst` | crates/mengxia-app/src/verification.rs:237-253 | the id taken is the first candidate not in use, provided no attempt before it failed |
| `IssuePaging.FollowFrom` | crates/mengxia-app/src/verification.rs:270-321 | pages of any sizes from 1 to 64, followed from any cursor handed out, give the issues from there on, each once and in order, without an error, and say when they end, whatever the owner's other reports are at each page |
| `IssuePaging.WholeReport` | crates/mengxia-app/src/verification.rs:270-321 | with the real cursor, as many pages as there are issues read the whole report as long as it is kept, whatever runs finish between the pages |
| `IssuePaging.RetainedReportReads` | crates/mengxia-app/src/verification.rs:228-426 | over every history of the owner, pages asked for at any moments while the report is among the latest four read the run's accepted findings up to the first 4096, in increasing ordinals |
| `Metrics.Position` | crates/mengxia-app/src/observability.rs:962-967 | the bucket is the first whose bound is not below the duration |
| `Metrics.CoreMetrics.constructor` | crates/mengxia-app/src/observability.rs:775-796 | all counters start at zero |
| `Metrics.CoreMetrics.MarkSaturation` | crates/mengxia-app/src/observability.rs:986-992 | the first saturation sets the flag and counts one drop |
| `Metrics.CoreMetrics.RecordTerminal` | crates/mengxia-app/src/observability.rs:805-855 | the record's steps make the specified new state: the three early tests, the counters, and the late index test, which would leave them moved |
| `Metrics.CoreMetrics.CoreCount` | crates/mengxia-app/src/observability.rs:931-939 | reads the counter of an operation and outcome |
| `Metrics.CoreMetrics.DropCount` | crates/mengxia-app/src/observability.rs:941-944 | reads the drops of a reason |
| `Metrics.CoreMetrics.TallyFailure` | crates/mengxia-app/src/observability.rs:845-852 | the error tallies of a record, with the refusal of a code that has no index |
| `Metrics.StepKeeps` | crates/mengxia-app/src/observability.rs:805-855 | one record keeps the balance and saturation stays; a terminal is refused if and only if an early test refuses it, so the late refusal is never met and a refused record changes nothing |
| `Metrics.RunBalances` | crates/mengxia-app/src/observability.rs:805-992 | over every run, while nothing saturated, each command counter is the sum of its histogram, and failing terminals are error tallies plus provider tallies plus NotFound terminals |
| `Metrics.RunCounts` | crates/mengxia-app/src/observability.rs:805-992 | over every run each command counter, histogram bucket, error and provider tally, drop and other counter holds exactly what the calls so far added to it, up to the ceiling; only the first saturation adds a drop of its own |
| `Metrics.RunSaturates` | crates/mengxia-app/src/observability.rs:969-992 | over every run the flag is set if and only if some counter was given more than it can hold |
| `Metrics.SaturationStays` | crates/mengxia-app/src/observability.rs:986-992 | once saturated, saturated for the rest of the run |
| `Config.ParseDocument` | crates/mengxia-app/src/config.rs:204-252 | the line loop over the value array computes the parser's function |
| `Config.DocumentsAreCanonical` | crates/mengxia-app/src/config.rs:204-252 | a document is accepted with values if and only if it is the printed form of those values within the limits: printing undoes parsing and parsing undoes printing |
| `Config.NoDuplicate` | crates/mengxia-app/src/config.rs:239-246 | on every list of lines the parser's loop answers as the loop without its test for duplicates: that branch is never taken |
| `ConfigKeys.KeysAreGood` | crates/mengxia-app/src/config.rs:44-75 | the 26 keys are strictly increasing in byte order and free of separators |
| `ConfigKeys.LibraryConfigIsCanonical` | crates/mengxia-app/src/config.rs:204-252 | the same for the real key table |
| `CommandLine.LowercaseHex` | bins/mengxia/src/main.rs:3067-3074 | the writing loop writes two lowercase digits a byte |
| `CommandLine.ParseHexExact` | bins/mengxia/src/main.rs:1260-1274 | reads bytes if and only if the text is the lowercase hex of exactly that many bytes, and these are the bytes |
| `CommandLine.ParseOptions` | bins/mengxia/src/main.rs:464-523 | a command line is accepted if and only if its arguments come in pairs, every option is known, none but the repeatable ones is given twice, every resource stands behind a representation and every member behind a resource that follows the last representation; then its entries are the pairs that are not slots, in order, and its slots the others |
| `CommandLine.AcceptsExactly` | bins/mengxia/src/main.rs:464-523 | the same of the parser's function |
| `CommandLine.AssetRevisionGraph` | bins/mengxia/src/main.rs:910-979 | the pushing loop computes the builder's function |
| `CommandLine.BuildsExactly` | bins/mengxia/src/main.rs:910-979 | the builder accepts a list of options if and only if each has its parent and can be read |
| `CommandLine.GraphExactly` | bins/mengxia/src/main.rs:964-979 | the graph is built if and only if its options are legal and readable and it has 1 to 64 representations of 1 to 64 resources of 1 to 4096 members |
| `CommandLine.MemberExact` | bins/mengxia/src/main.rs:938-963 | a member is accepted exactly as it is printed, with a valid name and a 32-byte digest |
| `CommandLine.ParentsAreNeverMissing` | bins/mengxia/src/main.rs:491-502 | no command line the option automaton accepts meets a missing parent in the builder |
| `CommandLine.ParsedOnce` | bins/mengxia/src/main.rs:503-519 | in every accepted option list no option but the repeatable ones occurs twice |
| `CommandLine.FlattenUndoesBuild` | bins/mengxia/src/main.rs:910-979 | flattening a built graph, members in lowercase hex, gives back its options in order |
| `InterruptControl.Control.constructor` | bins/mengxiad/src/main.rs:623-631 | no stop, no handle, nothing fired |
| `InterruptControl.Control.Stop` | bins/mengxiad/src/main.rs:633-643 | the first stop is kept and fires the live handle |
| `InterruptControl.Control.RegisterInterrupt` | bins/mengxiad/src/main.rs:660-676 | a conflict is seen before a stop, and a stop before installing |
| `InterruptControl.Control.ClearInterrupt` | bins/mengxiad/src/main.rs:678-687 | takes the handle, or reports that there is none |
| `InterruptControl.Control.Check` | bins/mengxiad/src/main.rs:646-656 | answers the stop, if there is one |
| `InterruptControl.FirstStopDecides` | bins/mengxiad/src/main.rs:614-687 | over every interleaving the first cause stands, and exactly the handle live at that moment was fired, once |
| `InterruptControl.StopIsSeen` | bins/mengxiad/src/main.rs:646-676 | after the first stop every checkpoint says so and no registration is installed |
| `InterruptControl.AnswersExactly` | bins/mengxiad/src/main.rs:614-687 | after any calls at all, what every call is answered, from the first stop requested and the handle installed |
| `InterruptControl.FiresAtMostOnce` | bins/mengxiad/src/main.rs:633-643 | over every run at most one interrupt is fired, and none without a stop |
| `Ratio.Gcd` | crates/mengxia-domain/src/creative.rs:158-165 | Euclid's loop returns the greatest common divisor |
| `Ratio.RatiosAreUnique` | crates/mengxia-domain/src/creative.rs:136-145 | two accepted ratios denote one rational if and only if they are the same pair |
| `Ratio.Reducible` | crates/mengxia-domain/src/creative.rs:136-145 | every positive fraction has an accepted form |

## Left out

- Tokio, Unix sockets, framing, peer credentials, signal handling and the session module: input and output plumbing.
- SQLite and blob storage: the ledger transactions of crates/mengxia-store-sqlite are modelled as functions on a table, each atomic; schemas, encodings and physical files are not.
- The protocols count as reachable some steps the store would refuse, such as a job running after its runtime failed; what is proved holds of fewer runs too.
- Claim guards are the counters of the two protocols that hold them; there is no separate guard object with an `armed` field.
- SHA-256 and the canonical JSON behind project policies and work specifications: digests enter the model as given bytes.
- Timestamps, generated identities and entropy: their failures are steps of the protocols, their values are not modelled.
- Metrics.CoreMetrics.RecordTerminal: a poisoned lock is not modelled, and the recorders of database, storage, integrity and health counters are one vector of saturating counters.
- Startup.Store.Classify: the caller's own corruption checks on a page have no branch, since the page contract rules them out.
- Rendering.SummaryRenders: the summary's mode, identity and snapshot number, which the command line also checks, are not modelled.
- Cursors.FillInspect: the encoder's refusal of inconsistent options has no branch, since positions keep them together.
- CommandLine.ParseOptions: only `asset create-revision`; option names are taken as recognised, the slots are numbers, and every failure is one public error, of which the model keeps the missing parent apart.
- CommandLine.FlattenUndoesBuild: UTF-8 validity is a parameter.
- Requests.BuildPreimage: lengths beyond what the length fields can say, where the source panics, are excluded.
- The retry matrix of asset-metadata and creative mutation responses, which pair a conflict with a fresh command although the matrix allows no retry there.
- Permanence of degraded health under concurrency: not promised by the code.
- Take transitions, health construction, enum mappings, configuration layering, rendering and log formatting: small case analysis that would only add easy members.
- The build scripts of the platform and plugin crates, and scripts/native-research.
