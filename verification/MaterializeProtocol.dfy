/** `MaterializeAssetService::execute_controlled` as the steps of concurrent calls over one ledger.

    There is no admission registry: calls for one command meet only in the ledger.  The claim guard
    exists from the moment the claim returns, not before.  `effects` and `answers` are history; each
    effect carries the row as it was when the effect began. */
module MaterializeProtocol {
  import opened Codes
  import opened Ledger
  import opened Options

  /** A store job some call waits for. */
  datatype Job =
    | NewJob
    | ReacquireJob(expected: Option<ErrorCode>)
    | CompleteJob(result: CommandResult)
    | FinishJob(terminal: bool, code: ErrorCode)

  datatype Counter =
    | Begun
    | Replaying(result: CommandResult)
    | Resolving(claim: Job)
    | Claiming(job: Job)
    | Holding
    | Publishing
    | Published
    | Completing(job: Job)
    | Finishing(job: Job)
    | Cleaning(result: CommandResult)
    | Ended
    | Dropped(job: Job)

  /** `lost`: the call's claim was granted after the call had been dropped. */
  datatype Call = Call(id: CommandId, digest: Digest, lost: bool, at: Counter)

  datatype Outcome = Success(result: CommandResult, replayed: bool, cleanupPending: bool) | Failure(code: ErrorCode)

  /** `settled`: the failure was read from, or just recorded as, a terminal rejection. */
  datatype Answer = Answer(id: CommandId, digest: Digest, outcome: Outcome, settled: bool)

  datatype Effect =
    | Publish(id: CommandId, digest: Digest, now: Runtime, row: Option<Entry>)
    | Cleanup(id: CommandId, digest: Digest, row: Option<Entry>)

  datatype World = World(
    table: Table,
    now: Runtime,
    gate: Gate,
    calls: map<nat, Call>,
    effects: set<Effect>,
    answers: set<Answer>)

  datatype Action =
    | Arrive(k: nat, id: CommandId, digest: Digest)
    | FailEarly(k: nat, code: ErrorCode)
    | ObserveReturns(k: nat, fate: Fate)
    | CleanReplay(k: nat, pending: bool)
    | SubmitClaim(k: nat)
    | StopHeld(k: nat, stop: Stop)
    | StartPublish(k: nat)
    | PublishDone(k: nat)
    | PublishStops(k: nat, stop: Stop)
    | PublishFails(k: nat, error: StoreError)
    | ClockFails(k: nat)
    | SubmitComplete(k: nat, result: CommandResult)
    | JobReturns(k: nat, fate: Fate)
    | AbandonClaim(k: nat, code: ErrorCode)
    | CleanPublished(k: nat, pending: bool)
    | DropFuture(k: nat)
    | RunOrphan(k: nat)
    | ClassifyRow(id: CommandId)
    | CloseGate
    | OtherCommand(table: Table, gate: Gate)
    | Restart(next: Runtime)

  /** A step of one call, or of the job it submitted. */
  predicate OfCall(a: Action) {
    !a.ClassifyRow? && !a.CloseGate? && !a.OtherCommand? && !a.Restart?
  }

  /** The call has an armed guard. */
  predicate Guarded(c: Counter) {
    c.Holding? || c.Publishing? || c.Published? || c.Completing? || c.Finishing?
  }

  /** The row is spoken for: by a guard, or by a job that resolves it though its caller is gone. */
  predicate Holder(c: Counter) {
    Guarded(c) || (c.Dropped? && (c.job.CompleteJob? || c.job.FinishJob?))
  }

  /** `recovery_code`. */
  function RecoveryCodeOf(e: StoreError): ErrorCode {
    match e
    case StoreIo => StorageIoError
    case ShuttingDown => StorageIoError
    case StoreConfiguration => StorageConfigurationError
    case StoreConflict => StorageConfigurationError
    case Validation => StorageConfigurationError
    case StoreIdGenerationUnavailable => IdGenerationUnavailable
    case _ => InternalError
  }

  function Disposition(terminal: bool, code: ErrorCode): Status {
    if terminal then TerminalRejected(code) else RecoveryRequired(code)
  }

  function RowAt(t: Table, id: CommandId): Option<Entry> {
    if id in t then Some(t[id]) else None
  }

  function JobTable(t: Table, now: Runtime, id: CommandId, digest: Digest, job: Job): Table {
    match job
    case NewJob => ClaimNew(t, now, id, digest).0
    case ReacquireJob(expected) => Reacquire(t, now, id, digest, expected).0
    case CompleteJob(result) => CompleteMaterialization(t, now, id, digest, result).0
    case FinishJob(terminal, code) => Finish(t, now, id, Materialize, digest, Disposition(terminal, code)).0
  }

  /** The error a job answers with when it runs, if any. */
  function JobError(t: Table, now: Runtime, id: CommandId, digest: Digest, job: Job): Option<StoreError> {
    match job
    case NewJob => ErrorOf(ClaimNew(t, now, id, digest).1)
    case ReacquireJob(expected) => ErrorOf(Reacquire(t, now, id, digest, expected).1)
    case CompleteJob(result) => ErrorOf(CompleteMaterialization(t, now, id, digest, result).1)
    case FinishJob(terminal, code) => ErrorOf(Finish(t, now, id, Materialize, digest, Disposition(terminal, code)).1)
  }

  function ErrorOf<T>(r: Result<T>): Option<StoreError> {
    match r
    case Ok(_) => None
    case Err(e) => Some(e)
  }

  function FateTable(t: Table, ran: Table, fate: Fate): Table {
    match fate
    case Runs => ran
    case Turned(_) => t
    case Fatal(applied, _) => if applied then ran else t
  }

  function FateError(error: Option<StoreError>, fate: Fate): Option<StoreError> {
    match fate
    case Runs => error
    case Turned(e) => Some(e)
    case Fatal(_, e) => Some(e)
  }

  function Move(w: World, k: nat, at: Counter): World
    requires k in w.calls
  {
    w.(calls := w.calls[k := w.calls[k].(at := at)])
  }

  function End(w: World, k: nat, outcome: Outcome, settled: bool): World
    requires k in w.calls
  {
    Move(w, k, Ended).(answers := w.answers + {Answer(w.calls[k].id, w.calls[k].digest, outcome, settled)})
  }

  function AfterObserve(w: World, k: nat, fate: Fate): World
    requires k in w.calls
  {
    var c := w.calls[k];
    if !fate.Runs? then
      End(w, k, Failure(CodeOf(if fate.Turned? then fate.error else fate.fatal)), false).(gate := AfterFate(w.gate, fate))
    else
      match Observe(w.table, w.now, c.id, c.digest)
      case Err(e) => End(w, k, Failure(CodeOf(e)), false)
      case Ok(o) =>
        match o
        case Absent => Move(w, k, Resolving(NewJob))
        case Candidate(seen) => Move(w, k, Resolving(ReacquireJob(seen)))
        case Busy => End(w, k, Failure(CommandInProgress), false)
        case Complete(r) => Move(w, k, Replaying(r))
        case Refused(code) => End(w, k, Failure(code), true)
  }

  /** What a call does with a job that succeeded. */
  function AfterSuccess(w: World, k: nat, job: Job): World
    requires k in w.calls
  {
    match job
    case CompleteJob(result) => Move(w, k, Cleaning(result))
    case FinishJob(terminal, code) => End(w, k, Failure(code), terminal)
    case _ => Move(w, k, Holding)
  }

  predicate Waiting(c: Counter) {
    c.Claiming? || c.Completing? || c.Finishing?
  }

  /** A job comes back to its call; on an error, a guard still armed fails the runtime. */
  function AfterJob(w: World, k: nat, fate: Fate): World
    requires k in w.calls && Waiting(w.calls[k].at)
  {
    var c := w.calls[k];
    var t := FateTable(w.table, JobTable(w.table, w.now, c.id, c.digest, c.at.job), fate);
    var error := FateError(JobError(w.table, w.now, c.id, c.digest, c.at.job), fate);
    var g := AfterFate(w.gate, fate);
    if error.None? then AfterSuccess(w.(table := t, gate := g), k, c.at.job)
    else End(w.(table := t, gate := if Guarded(c.at) then Failed else g), k, Failure(CodeOf(error.value)), false)
  }

  /** The future is dropped at an await: an armed guard fails the runtime, a job in flight goes on. */
  function AfterDrop(w: World, k: nat): World
    requires k in w.calls
  {
    var c := w.calls[k];
    var at := if Waiting(c.at) then Dropped(c.at.job) else Ended;
    Move(w, k, at).(gate := if Guarded(c.at) then Failed else w.gate)
  }

  /** A job runs though its caller is gone; nobody hears of a claim it obtains. */
  function AfterOrphan(w: World, k: nat): World
    requires k in w.calls && w.calls[k].at.Dropped?
  {
    var c := w.calls[k];
    var claims := c.at.job.NewJob? || c.at.job.ReacquireJob?;
    var granted := claims && JobError(w.table, w.now, c.id, c.digest, c.at.job).None?;
    w.(table := JobTable(w.table, w.now, c.id, c.digest, c.at.job),
       calls := w.calls[k := Call(c.id, c.digest, c.lost || granted, Ended)])
  }

  /** What commands of other operations may do to the ledger. */
  ghost predicate OthersOnly(t: Table, u: Table, now: Runtime) {
    && (forall id :: id in t ==> id in u && u[id].op == t[id].op && u[id].digest == t[id].digest)
    && (forall id :: id in t && t[id].op == Materialize ==> u[id] == t[id])
    && (forall id :: id in u && u[id].op == Materialize ==> id in t)
    && (forall id :: id in u ==> u[id].runtime <= now)
  }

  predicate At(w: World, k: nat, at: Counter) {
    k in w.calls && w.calls[k].at == at
  }

  ghost predicate Enabled(w: World, a: Action) {
    match a
    case Arrive(k, _, _) => k !in w.calls
    case FailEarly(k, code) =>
      k in w.calls && (w.calls[k].at.Begun? || w.calls[k].at.Replaying? || w.calls[k].at.Resolving?) && StoreCode(code)
    case ObserveReturns(k, fate) => At(w, k, Begun) && Possible(fate, w.gate == Failed)
    case CleanReplay(k, _) => k in w.calls && w.calls[k].at.Replaying?
    case SubmitClaim(k) => k in w.calls && w.calls[k].at.Resolving?
    case StopHeld(k, _) => At(w, k, Holding)
    case StartPublish(k) => At(w, k, Holding)
    case PublishDone(k) => At(w, k, Publishing)
    case PublishStops(k, _) => At(w, k, Publishing)
    case PublishFails(k, _) => At(w, k, Publishing)
    case ClockFails(k) => At(w, k, Published)
    case SubmitComplete(k, _) => At(w, k, Published)
    case JobReturns(k, fate) => k in w.calls && Waiting(w.calls[k].at) && Possible(fate, w.gate == Failed)
    case AbandonClaim(k, code) => k in w.calls && w.calls[k].at in {Holding, Publishing, Published} && StoreCode(code)
    case CleanPublished(k, _) => k in w.calls && w.calls[k].at.Cleaning?
    case DropFuture(k) => k in w.calls && !w.calls[k].at.Ended? && !w.calls[k].at.Dropped?
    case RunOrphan(k) => k in w.calls && w.calls[k].at.Dropped?
    case ClassifyRow(_) => true
    case CloseGate => w.gate == Closing
    case OtherCommand(u, g) => OthersOnly(w.table, u, w.now) && Worse(w.gate, g)
    case Restart(next) => next > w.now
  }

  function Apply(w: World, a: Action): World
    requires Enabled(w, a)
  {
    match a
    case Arrive(k, id, digest) => w.(calls := w.calls[k := Call(id, digest, false, Begun)])
    case FailEarly(k, code) => End(w, k, Failure(code), false)
    case ObserveReturns(k, fate) => AfterObserve(w, k, fate)
    case CleanReplay(k, pending) => Cleaned(w, k, true, pending)
    case SubmitClaim(k) => Move(w, k, Claiming(w.calls[k].at.claim))
    case StopHeld(k, stop) => Move(w, k, Finishing(FinishJob(true, StopCode(stop))))
    case StartPublish(k) =>
      var c := w.calls[k];
      Move(w, k, Publishing).(effects := w.effects + {Publish(c.id, c.digest, w.now, RowAt(w.table, c.id))})
    case PublishDone(k) => Move(w, k, Published)
    case PublishStops(k, stop) => Move(w, k, Finishing(FinishJob(true, StopCode(stop))))
    case PublishFails(k, e) => Move(w, k, Finishing(FinishJob(false, RecoveryCodeOf(e))))
    case ClockFails(k) => Move(w, k, Finishing(FinishJob(false, IdGenerationUnavailable)))
    case SubmitComplete(k, result) => Move(w, k, Completing(CompleteJob(result)))
    case JobReturns(k, fate) => AfterJob(w, k, fate)
    case AbandonClaim(k, code) => End(w, k, Failure(code), false).(gate := Failed)
    case CleanPublished(k, pending) => Cleaned(w, k, false, pending)
    case DropFuture(k) => AfterDrop(w, k)
    case RunOrphan(k) => AfterOrphan(w, k)
    case ClassifyRow(id) => w.(table := Classify(w.table, w.now, id))
    case CloseGate => w.(gate := Failed)
    case OtherCommand(u, g) => w.(table := u, gate := g)
    case Restart(next) => World(w.table, next, Open, map[], w.effects, w.answers)
  }

  /** The destination is cleaned up, and the stored result answered. */
  function Cleaned(w: World, k: nat, replayed: bool, pending: bool): World
    requires k in w.calls && (w.calls[k].at.Replaying? || w.calls[k].at.Cleaning?)
  {
    var c := w.calls[k];
    End(w, k, Success(c.at.result, replayed, pending), false).(effects := w.effects + {Cleanup(c.id, c.digest, RowAt(w.table, c.id))})
  }

  // Invariants

  ghost predicate InvHeld(w: World) {
    forall k :: k in w.calls && Holder(w.calls[k].at) ==> HeldBy(w.table, w.calls[k].id, Materialize, w.calls[k].digest, w.now)
  }

  ghost predicate InvUnique(w: World) {
    forall j, k :: j in w.calls && k in w.calls && j != k && Holder(w.calls[j].at) && Holder(w.calls[k].at) ==>
      w.calls[j].id != w.calls[k].id
  }

  /** Jobs fit the counters that wait for them, and record codes that recovery accepts. */
  ghost predicate InvJobs(w: World) {
    forall k :: k in w.calls ==> GoodJob(w.calls[k].at) && (w.calls[k].at.Dropped? && Holder(w.calls[k].at) ==> w.gate == Failed)
  }

  predicate GoodJob(c: Counter) {
    match c
    case Claiming(job) => job.NewJob? || job.ReacquireJob?
    case Resolving(job) => job.NewJob? || job.ReacquireJob?
    case Completing(job) => job.CompleteJob?
    case Finishing(job) => job.FinishJob? && (!job.terminal ==> RecoveryCode(job.code))
    case Dropped(job) => job.FinishJob? && !job.terminal ==> RecoveryCode(job.code)
    case _ => true
  }

  ghost predicate InvRows(w: World) {
    forall id :: id in w.table ==>
      && w.table[id].runtime <= w.now
      && (w.table[id].op == Materialize && w.table[id].status.RecoveryRequired? ==> RecoveryCode(w.table[id].status.code))
  }

  predicate ClaimedNow(t: Table, id: CommandId, now: Runtime) {
    id in t && t[id].op == Materialize && t[id].status == Claimed && t[id].runtime == now
  }

  /** Claimed by the running store, though no call or job will ever resolve it. */
  ghost predicate Stranded(w: World, id: CommandId) {
    ClaimedNow(w.table, id, w.now) && forall k :: k in w.calls && Holder(w.calls[k].at) ==> w.calls[k].id != id
  }

  ghost predicate InvLost(w: World) {
    forall k :: k in w.calls && w.calls[k].lost ==> Stranded(w, w.calls[k].id)
  }

  /** Some call guards the row, or lost its claim on it. */
  ghost predicate Accounted(w: World, id: CommandId) {
    exists k :: k in w.calls && w.calls[k].id == id && (Guarded(w.calls[k].at) || w.calls[k].lost)
  }

  ghost predicate InvCovered(w: World) {
    w.gate != Open || forall id :: ClaimedNow(w.table, id, w.now) ==> Accounted(w, id)
  }

  predicate CompletedAs(t: Table, id: CommandId, digest: Digest, result: CommandResult) {
    Bound(t, id, Materialize, digest) && t[id].status == Completed(result)
  }

  predicate Truthful(t: Table, a: Answer) {
    && (a.outcome.Success? ==> CompletedAs(t, a.id, a.digest, a.outcome.result))
    && (a.outcome.Failure? && a.settled ==>
          Bound(t, a.id, Materialize, a.digest) && t[a.id].status == TerminalRejected(a.outcome.code))
  }

  predicate Licensed(e: Effect) {
    match e
    case Publish(_, digest, now, row) => row == Some(Entry(Materialize, digest, now, Claimed))
    case Cleanup(_, digest, row) =>
      row.Some? && row.value.op == Materialize && row.value.digest == digest && row.value.status.Completed?
  }

  ghost predicate InvHistory(w: World) {
    && (forall a :: a in w.answers ==> Truthful(w.table, a))
    && (forall e :: e in w.effects ==> Licensed(e))
    && (forall k :: k in w.calls && (w.calls[k].at.Replaying? || w.calls[k].at.Cleaning?) ==>
          CompletedAs(w.table, w.calls[k].id, w.calls[k].digest, w.calls[k].at.result))
  }

  ghost predicate Inv(w: World) {
    InvHeld(w) && InvUnique(w) && InvJobs(w) && InvRows(w) && InvCovered(w) && InvLost(w) && InvHistory(w)
  }

  // A step of one call

  /** The row stays bound as it was, and a completed or rejected row stays altogether. */
  predicate RowKept(t: Table, u: Table, id: CommandId)
    requires id in t
  {
    && id in u && u[id].op == t[id].op && u[id].digest == t[id].digest
    && (t[id].op == Materialize && (t[id].status.Completed? || t[id].status.TerminalRejected?) ==> u[id] == t[id])
  }

  ghost predicate RowStep(t: Table, u: Table, id: CommandId, now: Runtime) {
    u == t
    || (&& id in u && u == t[id := u[id]] && u[id].op == Materialize && u[id].runtime == now
        && (id in t ==> RowKept(t, u, id) && t[id].op == Materialize)
        && (u[id].status.RecoveryRequired? ==> RecoveryCode(u[id].status.code)))
  }

  /** What a step of a call must respect; all of it is about its own row. */
  ghost predicate OwnStep(w: World, w': World, b: Call, c: Call) {
    && c.id == b.id && c.digest == b.digest && (b.lost ==> c.lost)
    && (c.lost && !b.lost ==> !Holder(c.at) && ClaimedNow(w'.table, c.id, w.now) && !ClaimedNow(w.table, c.id, w.now))
    && GoodJob(c.at) && (c.at.Dropped? && Holder(c.at) ==> w'.gate == Failed)
    && RowStep(w.table, w'.table, c.id, w.now)
    && (w'.table != w.table ==> Holder(b.at) || !ClaimedNow(w.table, c.id, w.now))
    && (Holder(c.at) ==> HeldBy(w'.table, c.id, Materialize, c.digest, w.now))
    && (Holder(c.at) && !Holder(b.at) ==> !ClaimedNow(w.table, c.id, w.now))
    && (|| w'.gate != Open || Guarded(c.at) || c.lost || !ClaimedNow(w'.table, c.id, w.now)
        || (w'.table == w.table && !Guarded(b.at)))
    && (c.at.Replaying? || c.at.Cleaning? ==> CompletedAs(w'.table, c.id, c.digest, c.at.result))
  }

  ghost predicate Allowed(w: World, w': World, k: nat) {
    && k in w.calls && k in w'.calls && w'.calls == w.calls[k := w'.calls[k]]
    && w'.now == w.now && Worse(w.gate, w'.gate)
    && OwnStep(w, w', w.calls[k], w'.calls[k])
    && (forall a :: a in w'.answers ==> a in w.answers || Truthful(w'.table, a))
    && (forall e :: e in w'.effects ==> e in w.effects || Licensed(e))
  }

  lemma StepHeld(w: World, w': World, k: nat)
    requires InvHeld(w) && InvUnique(w) && Allowed(w, w', k)
    ensures InvHeld(w') && InvUnique(w')
  {
  }

  lemma StepCovered(w: World, w': World, k: nat)
    requires InvCovered(w) && Allowed(w, w', k)
    ensures InvCovered(w')
  {
    if w'.gate == Open {
      forall id | ClaimedNow(w'.table, id, w.now) ensures Accounted(w', id) {
        if id == w.calls[k].id && (Guarded(w'.calls[k].at) || w'.calls[k].lost) {
          assert w'.calls[k].id == id;
        } else {
          assert ClaimedNow(w.table, id, w.now);
          var j :| j in w.calls && w.calls[j].id == id && (Guarded(w.calls[j].at) || w.calls[j].lost);
          assert w'.calls[j].id == id;
        }
      }
    }
  }

  lemma StepStranded(w: World, w': World, k: nat, id: CommandId)
    requires Allowed(w, w', k) && Stranded(w, id)
    ensures Stranded(w', id)
  {
  }

  lemma StepLost(w: World, w': World, k: nat)
    requires InvLost(w) && InvHeld(w) && Allowed(w, w', k)
    ensures InvLost(w')
  {
    forall j | j in w.calls && w.calls[j].lost ensures Stranded(w', w.calls[j].id) {
      StepStranded(w, w', k, w.calls[j].id);
    }
  }

  lemma StepHistory(w: World, w': World, k: nat)
    requires InvHistory(w) && InvRows(w) && InvJobs(w) && Allowed(w, w', k)
    ensures InvHistory(w') && InvRows(w') && InvJobs(w')
  {
  }

  lemma StepKeeps(w: World, w': World, k: nat)
    requires Inv(w) && Allowed(w, w', k)
    ensures Inv(w')
  {
    StepHeld(w, w', k);
    StepCovered(w, w', k);
    StepLost(w, w', k);
    StepHistory(w, w', k);
  }

  // Each action is such a step

  /** What the invariant says to call `k` about its own row. */
  ghost predicate Local(w: World, k: nat) {
    && k in w.calls
    && var c := w.calls[k];
       && GoodJob(c.at) && (c.at.Dropped? && Holder(c.at) ==> w.gate == Failed)
       && (Holder(c.at) ==> HeldBy(w.table, c.id, Materialize, c.digest, w.now))
       && (c.at.Replaying? || c.at.Cleaning? ==> CompletedAs(w.table, c.id, c.digest, c.at.result))
       && (c.id in w.table ==> w.table[c.id].runtime <= w.now)
  }

  /** The ledger is left alone, and the call moves on without a guard. */
  lemma QuietAllowed(w: World, k: nat, at: Counter, g: Gate)
    requires Local(w, k) && !Holder(w.calls[k].at) && !Holder(at) && !at.Dropped? && GoodJob(at) && Worse(w.gate, g)
    requires at.Replaying? || at.Cleaning? ==> CompletedAs(w.table, w.calls[k].id, w.calls[k].digest, at.result)
    ensures Allowed(w, Move(w, k, at).(gate := g), k)
  {
  }

  /** The call ends: unguarded before, or behind a failed runtime. */
  lemma EndAllowed(w: World, k: nat, outcome: Outcome, settled: bool, g: Gate)
    requires Local(w, k) && Worse(w.gate, g) && (Holder(w.calls[k].at) ==> g != Open)
    requires Truthful(w.table, Answer(w.calls[k].id, w.calls[k].digest, outcome, settled))
    ensures Allowed(w, End(w, k, outcome, settled).(gate := g), k)
  {
  }

  lemma ObserveAllowed(w: World, k: nat, fate: Fate)
    requires Local(w, k) && At(w, k, Begun)
    ensures Allowed(w, AfterObserve(w, k, fate), k)
  {
    var c := w.calls[k];
    if !fate.Runs? {
      EndAllowed(w, k, Failure(CodeOf(if fate.Turned? then fate.error else fate.fatal)), false, AfterFate(w.gate, fate));
    } else {
      match Observe(w.table, w.now, c.id, c.digest)
      case Err(e) => EndAllowed(w, k, Failure(CodeOf(e)), false, w.gate);
      case Ok(o) =>
        match o
        case Absent => QuietAllowed(w, k, Resolving(NewJob), w.gate);
        case Candidate(seen) => QuietAllowed(w, k, Resolving(ReacquireJob(seen)), w.gate);
        case Busy => EndAllowed(w, k, Failure(CommandInProgress), false, w.gate);
        case Complete(r) => QuietAllowed(w, k, Replaying(r), w.gate);
        case Refused(code) => EndAllowed(w, k, Failure(code), true, w.gate);
    }
  }

  lemma JobFails(w: World, k: nat, fate: Fate)
    requires Local(w, k) && Waiting(w.calls[k].at) && AfterJob(w, k, fate).calls[k].at.Ended?
    requires !w.calls[k].at.Finishing? || !fate.Runs?
    ensures Allowed(w, AfterJob(w, k, fate), k)
  {
  }

  lemma ClaimSucceeds(w: World, k: nat)
    requires Local(w, k) && w.calls[k].at.Claiming?
    ensures Allowed(w, AfterJob(w, k, Runs), k)
  {
  }

  lemma ResolveSucceeds(w: World, k: nat)
    requires Local(w, k) && (w.calls[k].at.Completing? || w.calls[k].at.Finishing?)
    ensures Allowed(w, AfterJob(w, k, Runs), k)
  {
  }

  lemma JobAllowed(w: World, k: nat, fate: Fate)
    requires Local(w, k) && Waiting(w.calls[k].at)
    ensures Allowed(w, AfterJob(w, k, fate), k)
  {
    if fate.Runs? && w.calls[k].at.Claiming? {
      ClaimSucceeds(w, k);
    } else if fate.Runs? {
      ResolveSucceeds(w, k);
    } else {
      JobFails(w, k, fate);
    }
  }

  lemma OrphanAllowed(w: World, k: nat)
    requires Local(w, k) && w.calls[k].at.Dropped?
    ensures Allowed(w, AfterOrphan(w, k), k)
  {
  }

  lemma OpenAllowed(w: World, a: Action)
    requires Enabled(w, a) && (a.FailEarly? || a.CleanReplay? || a.SubmitClaim? || a.CleanPublished? || a.DropFuture?)
    requires Local(w, a.k)
    ensures Allowed(w, Apply(w, a), a.k)
  {
  }

  lemma GuardedAllowed(w: World, a: Action)
    requires Enabled(w, a)
    requires a.StopHeld? || a.StartPublish? || a.PublishDone? || a.PublishStops? || a.PublishFails? || a.ClockFails?
             || a.SubmitComplete? || a.AbandonClaim?
    requires Local(w, a.k)
    ensures Allowed(w, Apply(w, a), a.k)
  {
  }

  lemma CallAllowed(w: World, a: Action)
    requires Enabled(w, a)
    requires !a.Arrive? && OfCall(a) && Local(w, a.k)
    ensures Allowed(w, Apply(w, a), a.k)
  {
    match a {
      case ObserveReturns(k, fate) => ObserveAllowed(w, k, fate);
      case JobReturns(k, fate) => JobAllowed(w, k, fate);
      case RunOrphan(k) => OrphanAllowed(w, k);
      case FailEarly(_, _) => OpenAllowed(w, a);
      case CleanReplay(_, _) => OpenAllowed(w, a);
      case SubmitClaim(_) => OpenAllowed(w, a);
      case CleanPublished(_, _) => OpenAllowed(w, a);
      case DropFuture(_) => OpenAllowed(w, a);
      case _ => GuardedAllowed(w, a);
    }
  }

  lemma CallKeeps(w: World, a: Action)
    requires Inv(w) && Enabled(w, a)
    requires !a.Arrive? && OfCall(a)
    ensures Allowed(w, Apply(w, a), a.k) && Inv(Apply(w, a))
  {
    CallAllowed(w, a);
    StepKeeps(w, Apply(w, a), a.k);
  }

  // Steps outside the calls

  ghost predicate Below(w: World, u: Table) {
    && (forall id :: id in w.table ==> RowKept(w.table, u, id))
    && (forall id :: ClaimedNow(w.table, id, w.now) ==> u[id] == w.table[id])
    && (forall id :: ClaimedNow(u, id, w.now) ==> ClaimedNow(w.table, id, w.now))
    && InvRows(w.(table := u))
  }

  lemma BelowKeeps(w: World, u: Table, g: Gate, w': World)
    requires Inv(w) && Below(w, u) && Worse(w.gate, g) && w' == w.(table := u, gate := g)
    ensures Inv(w')
  {
    forall id | Accounted(w, id) ensures Accounted(w', id) {
      var j :| j in w.calls && w.calls[j].id == id && (Guarded(w.calls[j].at) || w.calls[j].lost);
      assert w'.calls[j].id == id;
    }
    assert InvHeld(w') && InvUnique(w') && InvJobs(w') && InvLost(w') && InvHistory(w');
  }

  lemma ArriveKeeps(w: World, k: nat, id: CommandId, digest: Digest, w': World)
    requires Inv(w) && k !in w.calls && w' == w.(calls := w.calls[k := Call(id, digest, false, Begun)])
    ensures Inv(w')
  {
    forall i | Accounted(w, i) ensures Accounted(w', i) {
      var j :| j in w.calls && w.calls[j].id == i && (Guarded(w.calls[j].at) || w.calls[j].lost);
      assert w'.calls[j].id == i;
    }
    assert InvHeld(w') && InvUnique(w') && InvJobs(w') && InvLost(w') && InvHistory(w');
  }

  lemma ClassifyKeeps(w: World, id: CommandId, w': World)
    requires Inv(w) && w' == w.(table := Classify(w.table, w.now, id))
    ensures Inv(w')
  {
    BelowKeeps(w, Classify(w.table, w.now, id), w.gate, w');
  }

  lemma OthersKeep(w: World, u: Table, g: Gate, w': World)
    requires Inv(w) && OthersOnly(w.table, u, w.now) && Worse(w.gate, g) && w' == w.(table := u, gate := g)
    ensures Inv(w')
  {
    BelowKeeps(w, u, g, w');
  }

  lemma RestartKeeps(w: World, next: Runtime, w': World)
    requires Inv(w) && next > w.now && w' == World(w.table, next, Open, map[], w.effects, w.answers)
    ensures Inv(w')
  {
  }

  lemma EdgeKeeps(w: World, a: Action, w': World)
    requires Inv(w) && Enabled(w, a) && w' == Apply(w, a) && (a.Arrive? || a.Restart?)
    ensures Inv(w')
  {
    match a
    case Arrive(k, id, digest) => ArriveKeeps(w, k, id, digest, w');
    case Restart(next) => RestartKeeps(w, next, w');
  }

  lemma OutsideKeeps(w: World, a: Action, w': World)
    requires Inv(w) && Enabled(w, a) && w' == Apply(w, a) && (a.ClassifyRow? || a.CloseGate? || a.OtherCommand?)
    ensures Inv(w')
  {
    match a
    case ClassifyRow(id) => ClassifyKeeps(w, id, w');
    case CloseGate => OthersKeep(w, w.table, Failed, w');
    case OtherCommand(u, g) => OthersKeep(w, u, g, w');
  }

  /** Every action of every call, job and outside party keeps the invariant. */
  lemma ActionKeeps(w: World, a: Action)
    requires Inv(w) && Enabled(w, a)
    ensures Inv(Apply(w, a))
  {
    if a.Arrive? || a.Restart? {
      EdgeKeeps(w, a, Apply(w, a));
    } else if !OfCall(a) {
      OutsideKeeps(w, a, Apply(w, a));
    } else {
      CallKeeps(w, a);
    }
  }
}
