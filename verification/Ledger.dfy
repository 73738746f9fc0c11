/** The durable command ledger: one row per command id, and the store transactions on it.

    A row is bound once to an operation and a request digest; a claim also names the store runtime
    that holds it.  Rows are never deleted. */
module Ledger {
  import opened Codes
  import opened Options

  type CommandId = nat
  type Digest = nat
  type Runtime = nat

  datatype Operation = Ingest | Materialize | OtherOperation

  datatype CommandResult = Registration(value: nat) | Revision(value: nat) | OtherResult

  datatype Status =
    | Claimed
    | Completed(result: CommandResult)
    | TerminalRejected(code: ErrorCode)
    | RecoveryRequired(code: ErrorCode)

  datatype Entry = Entry(op: Operation, digest: Digest, runtime: Runtime, status: Status)

  type Table = map<CommandId, Entry>

  predicate Bound(t: Table, id: CommandId, op: Operation, digest: Digest) {
    id in t && t[id].op == op && t[id].digest == digest
  }

  /** The row is claimed by the runtime asking. */
  predicate HeldBy(t: Table, id: CommandId, op: Operation, digest: Digest, now: Runtime) {
    id in t && t[id] == Entry(op, digest, now, Claimed)
  }

  /** What becomes of a claim whose runtime is gone. */
  function Settle(e: Entry): Entry {
    if e.status == Claimed then e.(status := RecoveryRequired(StorageConfigurationError)) else e
  }

  // Ingest transactions

  datatype ClaimOutcome =
    | Granted
    | InProgress
    | Replay(result: CommandResult)
    | Rejected(code: ErrorCode)
    | Recovery(code: ErrorCode)

  /** `claim_external`: a new row, or what the existing row says.  A claim left by another runtime
      is turned into a recovery obligation. */
  function ClaimExternal(t: Table, now: Runtime, id: CommandId, digest: Digest): (Table, Result<ClaimOutcome>) {
    if id !in t then (t[id := Entry(Ingest, digest, now, Claimed)], Ok(Granted))
    else if !Bound(t, id, Ingest, digest) then (t, Err(StoreConflict))
    else
      match t[id].status
      case Claimed =>
        if t[id].runtime == now then (t, Ok(InProgress))
        else (t[id := Settle(t[id])], Ok(Recovery(StorageConfigurationError)))
      case Completed(r) => (t, Ok(Replay(r)))
      case TerminalRejected(c) => (t, Ok(Rejected(c)))
      case RecoveryRequired(c) => (t, Ok(Recovery(c)))
  }

  datatype MutationOutcome = Applied(result: CommandResult) | Replayed(result: CommandResult) | Pending(code: ErrorCode)

  /** `complete_external`. */
  function CompleteExternal(t: Table, now: Runtime, id: CommandId, digest: Digest, result: CommandResult)
    : (Table, Result<MutationOutcome>)
  {
    if !Bound(t, id, Ingest, digest) then (t, Err(StoreConflict))
    else
      match t[id].status
      case Completed(r) => (t, Ok(Replayed(r)))
      case RecoveryRequired(c) => (t, Ok(Pending(c)))
      case TerminalRejected(_) => (t, Err(StoreConflict))
      case Claimed =>
        if t[id].runtime != now then (t, Err(StoreConflict))
        else (t[id := t[id].(status := Completed(result))], Ok(Applied(result)))
  }

  datatype FinishOutcome = Stored | AlreadyStored(code: ErrorCode)

  /** `finish_external` and `finish_materialization`: record a disposition on a held claim, or find
      the same one recorded. */
  function Finish(t: Table, now: Runtime, id: CommandId, op: Operation, digest: Digest, disposition: Status)
    : (Table, Result<FinishOutcome>)
    requires disposition.TerminalRejected? || disposition.RecoveryRequired?
  {
    if !Bound(t, id, op, digest) then (t, Err(StoreConflict))
    else if HeldBy(t, id, op, digest, now) then (t[id := t[id].(status := disposition)], Ok(Stored))
    else if t[id].status == disposition then (t, Ok(AlreadyStored(disposition.code)))
    else (t, Err(StoreConflict))
  }

  // Materialization transactions

  datatype Observation =
    | Absent
    | Busy
    | Candidate(seen: Option<ErrorCode>)
    | Complete(result: CommandResult)
    | Refused(code: ErrorCode)

  /** `observe_materialization`: a read. */
  function Observe(t: Table, now: Runtime, id: CommandId, digest: Digest): Result<Observation> {
    if id !in t then Ok(Absent)
    else if !Bound(t, id, Materialize, digest) then Err(StoreConflict)
    else
      match t[id].status
      case Claimed => Ok(if t[id].runtime == now then Busy else Candidate(None))
      case RecoveryRequired(c) => Ok(Candidate(Some(c)))
      case Completed(r) => Ok(Complete(r))
      case TerminalRejected(c) => Ok(Refused(c))
  }

  /** `claim_new_materialization`: only an absent row. */
  function ClaimNew(t: Table, now: Runtime, id: CommandId, digest: Digest): (Table, Result<()>) {
    if id in t then (t, Err(StoreConflict))
    else (t[id := Entry(Materialize, digest, now, Claimed)], Ok(()))
  }

  predicate RecoveryCode(code: ErrorCode) {
    code in {StorageConfigurationError, StorageIoError, IdGenerationUnavailable, InternalError}
  }

  /** `reacquire_materialization`: compare-and-swap from the recovery state that was observed. */
  function Reacquire(t: Table, now: Runtime, id: CommandId, digest: Digest, expected: Option<ErrorCode>)
    : (Table, Result<()>)
  {
    if !Bound(t, id, Materialize, digest) then (t, Err(StoreConflict))
    else
      var accepted :=
        match expected
        case None => t[id].status == Claimed && t[id].runtime != now
        case Some(c) => RecoveryCode(c) && t[id].status == RecoveryRequired(c);
      if accepted then (t[id := Entry(Materialize, digest, now, Claimed)], Ok(()))
      else (t, Err(StoreConflict))
  }

  /** `complete_materialization`. */
  function CompleteMaterialization(t: Table, now: Runtime, id: CommandId, digest: Digest, result: CommandResult)
    : (Table, Result<CommandResult>)
  {
    if HeldBy(t, id, Materialize, digest, now)
    then (t[id := t[id].(status := Completed(result))], Ok(result))
    else (t, Err(StoreConflict))
  }

  /** The startup pass over one row: a claim of another runtime becomes a recovery obligation. */
  function Classify(t: Table, now: Runtime, id: CommandId): Table {
    if id in t && t[id].runtime != now then t[id := Settle(t[id])] else t
  }

  // What a transaction answers is what the row then says

  predicate Says(t: Table, id: CommandId, op: Operation, digest: Digest, status: Status) {
    Bound(t, id, op, digest) && t[id].status == status
  }

  /** A transaction on `id` leaves every other row alone. */
  ghost predicate Elsewhere(t: Table, u: Table, id: CommandId) {
    forall x :: x != id ==> (x in t <==> x in u) && (x in t ==> u[x] == t[x])
  }

  /** The claim of an ingest: granted exactly on an absent row, and otherwise what the row says, a claim of
      another runtime counting as an obligation. */
  lemma ClaimTells(t: Table, now: Runtime, id: CommandId, digest: Digest, u: Table, r: Result<ClaimOutcome>)
    requires ClaimExternal(t, now, id, digest) == (u, r)
    ensures Elsewhere(t, u, id)
    ensures r == Ok(Granted) <==> id !in t
    ensures r == Ok(Granted) ==> HeldBy(u, id, Ingest, digest, now)
    ensures r == Ok(InProgress) <==> id in t && HeldBy(t, id, Ingest, digest, now)
    ensures forall x :: r == Ok(Replay(x)) <==> Says(u, id, Ingest, digest, Completed(x))
    ensures forall c :: r == Ok(Rejected(c)) <==> Says(u, id, Ingest, digest, TerminalRejected(c))
    ensures forall c :: r == Ok(Recovery(c)) <==> Says(u, id, Ingest, digest, RecoveryRequired(c))
    ensures r.Err? <==> id in t && !Bound(t, id, Ingest, digest)
    ensures r.Err? ==> r.error == StoreConflict
    ensures id in t ==> u[id] == if Bound(t, id, Ingest, digest) && t[id].runtime != now then Settle(t[id]) else t[id]
  {
  }

  /** The completion of an ingest: it changes exactly the caller's own claim. */
  lemma CompleteTells(t: Table, now: Runtime, id: CommandId, digest: Digest, result: CommandResult, u: Table, r: Result<MutationOutcome>)
    requires CompleteExternal(t, now, id, digest, result) == (u, r)
    ensures Elsewhere(t, u, id) && (id in u <==> id in t)
    ensures u == t <==> !HeldBy(t, id, Ingest, digest, now)
    ensures forall x :: r == Ok(Applied(x)) <==> x == result && HeldBy(t, id, Ingest, digest, now)
    ensures forall x :: r == Ok(Applied(x)) || r == Ok(Replayed(x)) <==> Says(u, id, Ingest, digest, Completed(x))
    ensures forall c :: r == Ok(Pending(c)) <==> Says(u, id, Ingest, digest, RecoveryRequired(c))
    ensures r.Err? ==> r.error == StoreConflict
  {
  }

  /** Recording a failure: it changes exactly the caller's own claim, and succeeds exactly when the row then
      has the record. */
  lemma FinishTells(t: Table, now: Runtime, id: CommandId, op: Operation, digest: Digest, d: Status, u: Table, r: Result<FinishOutcome>)
    requires d.TerminalRejected? || d.RecoveryRequired?
    requires Finish(t, now, id, op, digest, d) == (u, r)
    ensures Elsewhere(t, u, id) && (id in u <==> id in t)
    ensures u == t <==> !HeldBy(t, id, op, digest, now)
    ensures r.Ok? <==> Says(u, id, op, digest, d)
    ensures r == Ok(Stored) <==> HeldBy(t, id, op, digest, now)
    ensures r.Ok? && r.value.AlreadyStored? ==> r.value.code == d.code
    ensures r.Err? ==> r.error == StoreConflict
  {
  }

  /** Taking up a materialization: what is observed decides which claim is granted, and only that one. */
  lemma ClaimsFollowObservation(t: Table, now: Runtime, id: CommandId, digest: Digest, expected: Option<ErrorCode>)
    ensures ClaimNew(t, now, id, digest).1.Ok? <==> Observe(t, now, id, digest) == Ok(Absent)
    ensures Reacquire(t, now, id, digest, expected).1.Ok? <==>
              Observe(t, now, id, digest) == Ok(Candidate(expected)) && (expected.Some? ==> RecoveryCode(expected.value))
    ensures ClaimNew(t, now, id, digest).1.Ok? ==> HeldBy(ClaimNew(t, now, id, digest).0, id, Materialize, digest, now)
    ensures Reacquire(t, now, id, digest, expected).1.Ok? ==> HeldBy(Reacquire(t, now, id, digest, expected).0, id, Materialize, digest, now)
    ensures Elsewhere(t, ClaimNew(t, now, id, digest).0, id) && Elsewhere(t, Reacquire(t, now, id, digest, expected).0, id)
    ensures ClaimNew(t, now, id, digest).1.Err? ==> ClaimNew(t, now, id, digest) == (t, Err(StoreConflict))
    ensures Reacquire(t, now, id, digest, expected).1.Err? ==> Reacquire(t, now, id, digest, expected) == (t, Err(StoreConflict))
  {
  }

  /** Completing a materialization succeeds exactly on the caller's own claim. */
  lemma MaterializationTells(t: Table, now: Runtime, id: CommandId, digest: Digest, result: CommandResult, u: Table, r: Result<CommandResult>)
    requires CompleteMaterialization(t, now, id, digest, result) == (u, r)
    ensures Elsewhere(t, u, id)
    ensures r.Ok? <==> HeldBy(t, id, Materialize, digest, now)
    ensures r.Ok? ==> r.value == result && Says(u, id, Materialize, digest, Completed(result)) && u[id].runtime == now
    ensures r.Err? ==> u == t && r.error == StoreConflict
  {
  }

  // How a transaction reaches its caller

  /** The gate of a store runtime.  `Closing`: the writer has met a fatal error and answered its caller,
      and is about to fail the runtime. */
  datatype Gate = Open | Closing | Failed

  predicate Worse(g: Gate, h: Gate) {
    g == h || g == Open || h == Failed
  }

  /** A job the store refuses has no effect; one that fails fatally may or may not have committed. */
  datatype Fate = Runs | Turned(error: StoreError) | Fatal(applied: bool, fatal: StoreError)

  predicate FatalError(e: StoreError) {
    e in {StoreIo, StoreCorruption, Internal}
  }

  /** A gate already closed answers `Internal`; otherwise refusals are not fatal errors. */
  predicate Possible(fate: Fate, failed: bool) {
    match fate
    case Runs => true
    case Turned(e) => !FatalError(e) || (e == Internal && failed)
    case Fatal(_, e) => FatalError(e)
  }

  function AfterFate(g: Gate, fate: Fate): Gate {
    if fate.Fatal? && g == Open then Closing else g
  }

  function Delivered<T>(t: Table, run: (Table, Result<T>), fate: Fate): (Table, Result<T>) {
    match fate
    case Runs => run
    case Turned(e) => (t, Err(e))
    case Fatal(applied, e) => (if applied then run.0 else t, Err(e))
  }
}
