/** `IngestAssetCopyService::execute` as the steps of concurrent calls over one registry and one
    ledger, across any number of store runtimes.

    A call is a program counter between its awaits.  Store jobs, cancelled futures, other commands
    and restarts interleave freely with it.  `starts` and `answers` are history: what was ever
    ingested and what was ever answered. */
module IngestProtocol {
  import opened Admission
  import opened Codes
  import opened IngestReplies
  import opened Ledger
  import opened Options

  datatype Counter =
    | Entered
    | Admitted
    | Claiming
    | Holding
    | Ingesting
    | BlobStored
    | Completing(result: nat)
    | Finishing(terminal: bool, code: ErrorCode, failure: Reply)
    | Leaving(reply: Reply, durable: bool)
    | Returned
    | Dropped

  /** One `execute` in progress.  `claimed` remembers that it obtained the claim. */
  datatype Call = Call(id: CommandId, digest: Digest, claimed: bool, at: Counter)

  /** What a call answered; `durable` when the answer is read from, or was just written to, the row. */
  datatype Answer = Answer(id: CommandId, digest: Digest, claimed: bool, reply: Reply, durable: bool)

  /** A store job whose caller was dropped while waiting for it. */
  datatype Job =
    | ClaimJob(id: CommandId, digest: Digest)
    | CompleteJob(id: CommandId, digest: Digest, result: nat)
    | FinishJob(id: CommandId, digest: Digest, terminal: bool, code: ErrorCode)

  datatype World = World(
    table: Table,
    now: Runtime,
    gate: Gate,
    registry: State,
    calls: map<nat, Call>,
    orphans: set<Job>,
    starts: multiset<CommandId>,
    answers: set<Answer>)

  datatype Action =
    | Arrive(k: nat, id: CommandId, digest: Digest)
    | TurnAway(k: nat, reply: Reply)
    | Acquire(k: nat)
    | Withdraw(k: nat, reply: Reply)
    | SubmitClaim(k: nat)
    | ClaimReturns(k: nat, fate: Fate)
    | StartIngest(k: nat)
    | StopHeld(k: nat, stop: Stop)
    | IngestStores(k: nat)
    | IngestStops(k: nat, stop: Stop)
    | IngestFails(k: nat, error: BlobError)
    | IdsFail(k: nat)
    | SubmitComplete(k: nat, result: nat)
    | CompleteReturns(k: nat, fate: Fate)
    | FinishReturns(k: nat, fate: Fate)
    | AbandonClaim(k: nat)
    | ReleaseCall(k: nat)
    | DropFuture(k: nat)
    | RunOrphan(job: Job)
    | ClassifyRow(id: CommandId)
    | CloseGate
    | OtherCommand(table: Table, gate: Gate)
    | Restart(next: Runtime)

  /** The call's admission is in the registry. */
  predicate Registered(c: Counter) {
    !c.Entered? && !c.Returned? && !c.Dropped?
  }

  predicate Unclaimed(c: Counter) {
    c.Entered? || c.Admitted? || c.Claiming?
  }

  /** The call holds the claim under an armed guard. */
  predicate Guarded(c: Counter) {
    c.Holding? || c.Ingesting? || c.BlobStored? || c.Completing? || c.Finishing?
  }

  /** Failures before admission: a stop, the path check, opening the source. */
  predicate EarlyReply(r: Reply) {
    r == RuntimeFailed || r == Failure(ValidationError, No)
    || (exists stop :: r == StoppedBeforeClaim(stop)) || (exists e :: r == MapSourceError(e))
  }

  /** Failures between admission and claim: a stop, or the clock. */
  predicate LateReply(r: Reply) {
    r == RuntimeFailed || r == Failure(IdGenerationUnavailable, AfterOperatorOrRuntimeAction)
    || exists stop :: r == StoppedBeforeClaim(stop)
  }

  function Disposition(terminal: bool, code: ErrorCode): Status {
    if terminal then TerminalRejected(code) else RecoveryRequired(code)
  }

  function Move(w: World, k: nat, at: Counter): World
    requires k in w.calls
  {
    w.(calls := w.calls[k := w.calls[k].(at := at)])
  }

  function Finished(w: World, k: nat, terminal: bool, code: ErrorCode, reply: Reply): World
    requires k in w.calls
  {
    Move(w, k, Finishing(terminal, code, reply))
  }

  /** An armed guard is dropped: the runtime fails, and the call leaves without a response. */
  function Abandoned(w: World, k: nat): World
    requires k in w.calls
  {
    Move(w, k, Leaving(RuntimeFailed, false)).(gate := Failed)
  }

  /** The claim comes back. */
  function AfterClaim(w: World, k: nat, fate: Fate): World
    requires k in w.calls
  {
    var c := w.calls[k];
    var (t: Table, r: Result<ClaimOutcome>) := Delivered(w.table, ClaimExternal(w.table, w.now, c.id, c.digest), fate);
    var w1 := w.(table := t, gate := AfterFate(w.gate, fate));
    match r
    case Err(e) => Move(w1, k, Leaving(MapClaimError(e), false))
    case Ok(Granted) => w1.(calls := w1.calls[k := Call(c.id, c.digest, true, Holding)])
    case Ok(InProgress) => Move(w1, k, Leaving(Failure(CommandInProgress, SameCommandAfterBoundedDelay), false))
    case Ok(Replay(result)) =>
      if result.Registration? then Move(w1, k, Leaving(Success(result.value), true)) else Abandoned(w1, k)
    case Ok(Rejected(code)) => Move(w1, k, Leaving(Recorded(true, code), true))
    case Ok(Recovery(code)) => Move(w1, k, Leaving(Recorded(false, code), true))
  }

  function AfterComplete(w: World, k: nat, fate: Fate): World
    requires k in w.calls && w.calls[k].at.Completing?
  {
    var c := w.calls[k];
    var (t: Table, r: Result<MutationOutcome>) := Delivered(w.table, CompleteExternal(w.table, w.now, c.id, c.digest, Registration(c.at.result)), fate);
    var w1 := w.(table := t, gate := AfterFate(w.gate, fate));
    match r
    case Err(_) => Abandoned(w1, k)
    case Ok(Pending(code)) => Move(w1, k, Leaving(Recorded(false, code), true))
    case Ok(Applied(result)) =>
      if result.Registration? then Move(w1, k, Leaving(Success(result.value), true)) else Abandoned(w1, k)
    case Ok(Replayed(result)) =>
      if result.Registration? then Move(w1, k, Leaving(Success(result.value), true)) else Abandoned(w1, k)
  }

  function AfterFinish(w: World, k: nat, fate: Fate): World
    requires k in w.calls && w.calls[k].at.Finishing?
  {
    var c := w.calls[k];
    var (t: Table, r: Result<FinishOutcome>) := Delivered(w.table, Finish(w.table, w.now, c.id, Ingest, c.digest, Disposition(c.at.terminal, c.at.code)), fate);
    var w1 := w.(table := t, gate := AfterFate(w.gate, fate));
    match r
    case Err(_) => Abandoned(w1, k)
    case Ok(Stored) => Move(w1, k, Leaving(c.at.failure, true))
    case Ok(AlreadyStored(code)) =>
      if code == c.at.code then Move(w1, k, Leaving(c.at.failure, true)) else Abandoned(w1, k)
  }

  /** The store job a call waits for. */
  function DropJob(c: Call): Job {
    match c.at
    case Completing(result) => CompleteJob(c.id, c.digest, result)
    case Finishing(terminal, code, _) => FinishJob(c.id, c.digest, terminal, code)
    case _ => ClaimJob(c.id, c.digest)
  }

  /** Dropping the waiting future drops the armed guard and the admission; the job may still run. */
  function AfterDrop(w: World, k: nat): World
    requires k in w.calls
  {
    var c := w.calls[k];
    Move(w, k, Dropped).(gate := Failed, registry := Release(w.registry, c.id), orphans := w.orphans + {DropJob(c)})
  }

  function JobTable(w: World, job: Job): Table {
    match job
    case ClaimJob(id, digest) => ClaimExternal(w.table, w.now, id, digest).0
    case CompleteJob(id, digest, result) => CompleteExternal(w.table, w.now, id, digest, Registration(result)).0
    case FinishJob(id, digest, terminal, code) =>
      Finish(w.table, w.now, id, Ingest, digest, Disposition(terminal, code)).0
  }

  /** What commands of other operations may do to the ledger: add their own rows and change them,
      never delete a row, never touch an ingest row. */
  ghost predicate OthersOnly(t: Table, u: Table, now: Runtime) {
    && (forall id :: id in t ==> id in u && u[id].op == t[id].op && u[id].digest == t[id].digest)
    && (forall id :: id in t && t[id].op == Ingest ==> u[id] == t[id])
    && (forall id :: id in u && u[id].op == Ingest ==> id in t)
    && (forall id :: id in u ==> u[id].runtime <= now)
  }

  predicate At(w: World, k: nat, at: Counter) {
    k in w.calls && w.calls[k].at == at
  }

  ghost predicate Enabled(w: World, a: Action) {
    match a
    case Arrive(k, _, _) => k !in w.calls
    case TurnAway(k, reply) => At(w, k, Entered) && EarlyReply(reply)
    case Acquire(k) => At(w, k, Entered)
    case Withdraw(k, reply) => At(w, k, Admitted) && LateReply(reply)
    case SubmitClaim(k) => At(w, k, Admitted)
    case ClaimReturns(k, fate) => At(w, k, Claiming) && Possible(fate, w.gate == Failed)
    case StartIngest(k) => At(w, k, Holding)
    case StopHeld(k, _) => At(w, k, Holding)
    case IngestStores(k) => At(w, k, Ingesting)
    case IngestStops(k, _) => At(w, k, Ingesting)
    case IngestFails(k, _) => At(w, k, Ingesting)
    case IdsFail(k) => At(w, k, BlobStored)
    case SubmitComplete(k, _) => At(w, k, BlobStored)
    case CompleteReturns(k, fate) => k in w.calls && w.calls[k].at.Completing? && Possible(fate, w.gate == Failed)
    case FinishReturns(k, fate) => k in w.calls && w.calls[k].at.Finishing? && Possible(fate, w.gate == Failed)
    case AbandonClaim(k) => k in w.calls && w.calls[k].at in {Holding, Ingesting, BlobStored}
    case ReleaseCall(k) => k in w.calls && w.calls[k].at.Leaving?
    case DropFuture(k) => k in w.calls && (w.calls[k].at.Claiming? || w.calls[k].at.Completing? || w.calls[k].at.Finishing?)
    case RunOrphan(job) => job in w.orphans
    case ClassifyRow(_) => true
    case CloseGate => w.gate == Closing
    case OtherCommand(u, g) => OthersOnly(w.table, u, w.now) && Worse(w.gate, g)
    case Restart(next) => next > w.now
  }

  function Apply(limits: Limits, w: World, a: Action): World
    requires Enabled(w, a)
  {
    match a
    case Arrive(k, id, digest) => w.(calls := w.calls[k := Call(id, digest, false, Entered)])
    case TurnAway(k, reply) => Answered(w, k, reply, false)
    case Acquire(k) =>
      var c := w.calls[k];
      (match Refusal(w.registry, limits, c.id, c.digest)
       case Some(reply) => Answered(w, k, reply, false)
       case None => Move(w, k, Admitted).(registry := Admit(w.registry, c.id, c.digest)))
    case Withdraw(k, reply) => Move(w, k, Leaving(reply, false))
    case SubmitClaim(k) => Move(w, k, Claiming)
    case ClaimReturns(k, fate) => AfterClaim(w, k, fate)
    case StartIngest(k) => Move(w, k, Ingesting).(starts := w.starts + multiset{w.calls[k].id})
    case StopHeld(k, stop) => Finished(w, k, true, StopCode(stop), StoppedAfterClaim(stop))
    case IngestStores(k) => Move(w, k, BlobStored)
    case IngestStops(k, stop) => Finished(w, k, true, StopCode(stop), StoppedAfterClaim(stop))
    case IngestFails(k, e) =>
      (match MapBlobError(e)
       case Record(terminal, code, reply) => Finished(w, k, terminal, code, reply)
       case Abandon => Abandoned(w, k))
    case IdsFail(k) =>
      Finished(w, k, false, IdGenerationUnavailable, Failure(IdGenerationUnavailable, AfterOperatorOrRuntimeAction))
    case SubmitComplete(k, result) => Move(w, k, Completing(result))
    case CompleteReturns(k, fate) => AfterComplete(w, k, fate)
    case FinishReturns(k, fate) => AfterFinish(w, k, fate)
    case AbandonClaim(k) => Abandoned(w, k)
    case ReleaseCall(k) =>
      var c := w.calls[k];
      Answered(w, k, c.at.reply, c.at.durable).(registry := Release(w.registry, c.id))
    case DropFuture(k) => AfterDrop(w, k)
    case RunOrphan(job) => w.(table := JobTable(w, job), orphans := w.orphans - {job})
    case ClassifyRow(id) => w.(table := Classify(w.table, w.now, id))
    case CloseGate => w.(gate := Failed)
    case OtherCommand(u, g) => w.(table := u, gate := g)
    case Restart(next) => World(w.table, next, Open, State(map[], 0), map[], {}, w.starts, w.answers)
  }

  /** The call is over and its answer is given. */
  function Answered(w: World, k: nat, reply: Reply, durable: bool): World
    requires k in w.calls
  {
    var c := w.calls[k];
    Move(w, k, Returned).(answers := w.answers + {Answer(c.id, c.digest, c.claimed, reply, durable)})
  }

  ghost predicate Init(w: World) {
    w == World(map[], w.now, Open, State(map[], 0), map[], {}, multiset{}, {})
  }

  ghost predicate Next(limits: Limits, w: World, w': World) {
    exists a :: Enabled(w, a) && w' == Apply(limits, w, a)
  }

  // Invariants

  ghost predicate InvRegistry(limits: Limits, w: World) {
    && Consistent(w.registry, limits)
    && (forall k :: k in w.calls && Registered(w.calls[k].at) ==>
          w.calls[k].id in w.registry.bindings && w.registry.bindings[w.calls[k].id] == w.calls[k].digest)
    && (forall j, k :: j in w.calls && k in w.calls && j != k && Registered(w.calls[j].at) && Registered(w.calls[k].at) ==>
          w.calls[j].id != w.calls[k].id)
  }

  ghost predicate InvHeld(w: World) {
    forall k :: k in w.calls && Guarded(w.calls[k].at) ==>
      w.calls[k].claimed && HeldBy(w.table, w.calls[k].id, Ingest, w.calls[k].digest, w.now)
  }

  /** Some call holds the row under its guard. */
  ghost predicate Owned(w: World, id: CommandId) {
    exists k :: k in w.calls && w.calls[k].id == id && Guarded(w.calls[k].at)
  }

  /** A claim of this runtime is owned by a call, or the runtime has failed or is about to. */
  ghost predicate InvCovered(w: World) {
    w.gate != Open || forall id :: ClaimedNow(w.table, id, w.now) ==> Owned(w, id)
  }

  ghost predicate InvOrphans(w: World) {
    && (w.orphans != {} ==> w.gate == Failed)
    && (forall job :: job in w.orphans && !job.ClaimJob? ==>
          job.id in w.table && forall k :: k in w.calls && Guarded(w.calls[k].at) ==> w.calls[k].id != job.id)
    && (forall job :: job in w.orphans && job.FinishJob? ==> RecordedCode(job.terminal, job.code))
  }

  /** What this service records on an ingest row. */
  predicate Recordable(status: Status) {
    match status
    case Claimed => true
    case Completed(r) => r.Registration?
    case TerminalRejected(c) => RecordedCode(true, c)
    case RecoveryRequired(c) => RecordedCode(false, c)
  }

  /** Rows belong to past or present runtimes; ingest rows hold what this service records. */
  ghost predicate InvRows(w: World) {
    forall id :: id in w.table ==>
      w.table[id].runtime <= w.now && (w.table[id].op == Ingest ==> Recordable(w.table[id].status))
  }

  ghost predicate InvStarts(w: World) {
    && (forall id :: w.starts[id] <= 1)
    && (forall id :: id !in w.table ==> w.starts[id] == 0)
    && (forall k :: k in w.calls && w.calls[k].at.Holding? ==> w.starts[w.calls[k].id] == 0)
  }

  function AnswerOf(c: Call): Answer
    requires c.at.Leaving?
  {
    Answer(c.id, c.digest, c.claimed, c.at.reply, c.at.durable)
  }

  /** What a row answers. */
  function RowReply(status: Status): Reply {
    match status
    case Claimed => RuntimeFailed
    case Completed(r) => if r.Registration? then Success(r.value) else RuntimeFailed
    case TerminalRejected(c) => Recorded(true, c)
    case RecoveryRequired(c) => Recorded(false, c)
  }

  /** An answer agrees with the row it speaks about, and can be encoded. */
  ghost predicate Truthful(t: Table, a: Answer) {
    && Emitted(a.reply)
    && (a.claimed ==> a.durable || a.reply == RuntimeFailed)
    && (a.reply.Success? ==> a.durable)
    && (a.durable && a.reply != RuntimeFailed ==> Bound(t, a.id, Ingest, a.digest) && a.reply == RowReply(t[a.id].status))
  }

  ghost predicate InvAnswers(w: World) {
    && (forall a :: a in w.answers ==> Truthful(w.table, a))
    && (forall k :: k in w.calls && w.calls[k].at.Leaving? ==>
          Truthful(w.table, AnswerOf(w.calls[k])))
    && (forall k :: k in w.calls && w.calls[k].at.Finishing? ==>
          && RecordedCode(w.calls[k].at.terminal, w.calls[k].at.code)
          && w.calls[k].at.failure == Recorded(w.calls[k].at.terminal, w.calls[k].at.code))
  }

  predicate ClaimedNow(t: Table, id: CommandId, now: Runtime) {
    id in t && t[id].op == Ingest && t[id].status == Claimed && t[id].runtime == now
  }

  /** A call that obtained its claim leaves only behind its own row, resolved, or a failed runtime. */
  ghost predicate InvLeft(w: World) {
    forall k :: k in w.calls && w.calls[k].claimed ==>
      && Bound(w.table, w.calls[k].id, Ingest, w.calls[k].digest) && w.table[w.calls[k].id].runtime == w.now
      && !Unclaimed(w.calls[k].at)
      && (Guarded(w.calls[k].at) || w.gate == Failed || !ClaimedNow(w.table, w.calls[k].id, w.now))
  }

  ghost predicate Inv(limits: Limits, w: World) {
    && InvRegistry(limits, w)
    && InvHeld(w)
    && InvCovered(w)
    && InvOrphans(w)
    && InvRows(w)
    && InvStarts(w)
    && InvAnswers(w)
    && InvLeft(w)
  }

  // Steps of one call

  /** The ledger is unchanged, or gains the row as a claim of this runtime, or has its claim resolved. */
  ghost predicate RowStep(t: Table, u: Table, id: CommandId, now: Runtime) {
    u == t
    || (&& id in u && u == t[id := u[id]] && u[id].op == Ingest && u[id].runtime <= now && Recordable(u[id].status)
        && if id in t then u[id] == t[id].(status := u[id].status) && t[id].status == Claimed && u[id].status != Claimed
           else u[id].status == Claimed)
  }

  /** The row stays bound as it was; once resolved, an ingest row stays altogether. */
  predicate RowKept(t: Table, u: Table, id: CommandId)
    requires id in t
  {
    && id in u && u[id].op == t[id].op && u[id].digest == t[id].digest
    && (t[id].op == Ingest ==> u[id].runtime == t[id].runtime)
    && (t[id].op == Ingest && t[id].status != Claimed ==> u[id] == t[id])
  }

  ghost predicate Evolves(t: Table, u: Table) {
    forall id :: id in t ==> RowKept(t, u, id)
  }

  lemma TruthStays(t: Table, u: Table, a: Answer)
    requires a.id in t ==> RowKept(t, u, a.id)
    requires Truthful(t, a)
    ensures Truthful(u, a)
  {
  }

  function Replace(w: World, k: nat, c: Call, t: Table, g: Gate): World {
    w.(calls := w.calls[k := c], table := t, gate := g)
  }

  /** What a step of call `k` must respect; all of it is about its own row. */
  ghost predicate Allowed(w: World, k: nat, c: Call, t: Table, g: Gate) {
    && k in w.calls && Registered(w.calls[k].at) && Registered(c.at)
    && c.id == w.calls[k].id && c.digest == w.calls[k].digest
    && RowStep(w.table, t, c.id, w.now)
    && Worse(w.gate, g)
    && (Guarded(c.at) ==> c.claimed && HeldBy(t, c.id, Ingest, c.digest, w.now))
    && (Guarded(c.at) && !Guarded(w.calls[k].at) ==> c.id !in w.table)
    && (!Guarded(c.at) ==> (if c.claimed then g == Failed else g != Open) || !ClaimedNow(t, c.id, w.now))
    && (c.claimed ==> !Unclaimed(c.at) && Bound(t, c.id, Ingest, c.digest) && t[c.id].runtime == w.now)
    && (c.at.Holding? ==> w.starts[c.id] == 0)
    && (c.at.Leaving? ==> Truthful(t, AnswerOf(c)))
    && (c.at.Finishing? ==> RecordedCode(c.at.terminal, c.at.code) && c.at.failure == Recorded(c.at.terminal, c.at.code))
  }

  lemma StepHeld(limits: Limits, w: World, k: nat, c: Call, t: Table, g: Gate)
    requires InvRegistry(limits, w) && InvHeld(w) && Allowed(w, k, c, t, g)
    ensures InvRegistry(limits, Replace(w, k, c, t, g)) && InvHeld(Replace(w, k, c, t, g))
  {
  }

  lemma StepCovered(w: World, k: nat, c: Call, t: Table, g: Gate)
    requires InvCovered(w) && Allowed(w, k, c, t, g)
    ensures InvCovered(Replace(w, k, c, t, g))
  {
    var w' := Replace(w, k, c, t, g);
    if g == Open {
      forall id | ClaimedNow(t, id, w.now) ensures Owned(w', id) {
        if id == c.id {
          assert w'.calls[k].id == id;
        } else {
          assert ClaimedNow(w.table, id, w.now);
          var j :| j in w.calls && w.calls[j].id == id && Guarded(w.calls[j].at);
          assert w'.calls[j].id == id;
        }
      }
    }
  }

  lemma StepOrphans(w: World, k: nat, c: Call, t: Table, g: Gate)
    requires InvOrphans(w) && Allowed(w, k, c, t, g)
    ensures InvOrphans(Replace(w, k, c, t, g))
  {
  }

  lemma StepRows(w: World, k: nat, c: Call, t: Table, g: Gate)
    requires InvRows(w) && InvStarts(w) && Allowed(w, k, c, t, g)
    ensures InvRows(Replace(w, k, c, t, g)) && InvStarts(Replace(w, k, c, t, g))
  {
  }

  lemma StepAnswers(w: World, k: nat, c: Call, t: Table, g: Gate)
    requires InvAnswers(w) && Allowed(w, k, c, t, g)
    ensures InvAnswers(Replace(w, k, c, t, g))
  {
    assert Evolves(w.table, t);
    forall a | a in w.answers ensures Truthful(t, a) {
      TruthStays(w.table, t, a);
    }
    forall j | j in w.calls && j != k && w.calls[j].at.Leaving?
      ensures Truthful(t, AnswerOf(w.calls[j]))
    {
      TruthStays(w.table, t, AnswerOf(w.calls[j]));
    }
  }

  lemma StepLeft(w: World, k: nat, c: Call, t: Table, g: Gate)
    requires InvLeft(w) && Allowed(w, k, c, t, g)
    ensures InvLeft(Replace(w, k, c, t, g))
  {
  }

  lemma StepKeeps(limits: Limits, w: World, k: nat, c: Call, t: Table, g: Gate)
    requires Inv(limits, w) && Allowed(w, k, c, t, g)
    ensures Inv(limits, Replace(w, k, c, t, g))
  {
    StepHeld(limits, w, k, c, t, g);
    StepCovered(w, k, c, t, g);
    StepOrphans(w, k, c, t, g);
    StepRows(w, k, c, t, g);
    StepAnswers(w, k, c, t, g);
    StepLeft(w, k, c, t, g);
  }

  /** What the invariant says to call `k` about its own row. */
  ghost predicate Local(w: World, k: nat) {
    && k in w.calls
    && var c := w.calls[k];
       && Registered(c.at)
       && (!Guarded(c.at) ==> (if c.claimed then w.gate == Failed else w.gate != Open) || !ClaimedNow(w.table, c.id, w.now))
       && (Guarded(c.at) ==> c.claimed && HeldBy(w.table, c.id, Ingest, c.digest, w.now))
       && (c.claimed ==> !Unclaimed(c.at) && Bound(w.table, c.id, Ingest, c.digest) && w.table[c.id].runtime == w.now)
       && (c.id !in w.table || c.at.Holding? ==> w.starts[c.id] == 0)
       && (c.id in w.table ==> w.table[c.id].runtime <= w.now)
       && (c.id in w.table && w.table[c.id].op == Ingest ==> Recordable(w.table[c.id].status))
       && (c.at.Finishing? ==> RecordedCode(c.at.terminal, c.at.code) && c.at.failure == Recorded(c.at.terminal, c.at.code))
  }

  lemma Localize(limits: Limits, w: World, k: nat)
    requires Inv(limits, w) && k in w.calls && Registered(w.calls[k].at)
    ensures Local(w, k)
  {
  }

  lemma ClaimErrs(w: World, k: nat, c: Call, t: Table, e: StoreError, fate: Fate)
    requires Local(w, k) && At(w, k, Claiming)
    requires c == w.calls[k].(at := Leaving(MapClaimError(e), false))
    requires t == ClaimExternal(w.table, w.now, c.id, c.digest).0 || t == w.table
    requires fate.Fatal? || t == w.table
    ensures Allowed(w, k, c, t, AfterFate(w.gate, fate))
  {
    TablesAreEmitted(InvalidPath, e, Cancelled, true, ValidationError);
  }

  lemma ClaimGrants(w: World, k: nat)
    requires Local(w, k) && At(w, k, Claiming) && w.calls[k].id !in w.table
    ensures var w' := AfterClaim(w, k, Runs); Allowed(w, k, w'.calls[k], w'.table, w'.gate)
  {
  }

  lemma ClaimReplays(w: World, k: nat)
    requires Local(w, k) && At(w, k, Claiming) && w.calls[k].id in w.table
    requires !Bound(w.table, w.calls[k].id, Ingest, w.calls[k].digest) || w.table[w.calls[k].id].status != Claimed
    ensures var w' := AfterClaim(w, k, Runs); Allowed(w, k, w'.calls[k], w'.table, w'.gate)
  {
    var status := w.table[w.calls[k].id].status;
    if status.TerminalRejected? {
      TablesAreEmitted(InvalidPath, Internal, Cancelled, true, status.code);
    }
  }

  lemma ClaimMeetsClaim(w: World, k: nat)
    requires Local(w, k) && At(w, k, Claiming)
    requires Bound(w.table, w.calls[k].id, Ingest, w.calls[k].digest) && w.table[w.calls[k].id].status == Claimed
    ensures var w' := AfterClaim(w, k, Runs); Allowed(w, k, w'.calls[k], w'.table, w'.gate)
  {
  }

  lemma ClaimAllowed(w: World, k: nat, fate: Fate)
    requires Local(w, k) && At(w, k, Claiming)
    ensures var w' := AfterClaim(w, k, fate);
            && w' == Replace(w, k, w'.calls[k], w'.table, w'.gate)
            && Allowed(w, k, w'.calls[k], w'.table, w'.gate)
  {
    var w' := AfterClaim(w, k, fate);
    match fate
    case Runs =>
      if w.calls[k].id !in w.table {
        ClaimGrants(w, k);
      } else if Bound(w.table, w.calls[k].id, Ingest, w.calls[k].digest) && w.table[w.calls[k].id].status == Claimed {
        ClaimMeetsClaim(w, k);
      } else {
        ClaimReplays(w, k);
      }
    case Turned(e) => ClaimErrs(w, k, w'.calls[k], w'.table, e, fate);
    case Fatal(_, e) => ClaimErrs(w, k, w'.calls[k], w'.table, e, fate);
  }

  lemma CompleteAllowed(w: World, k: nat, fate: Fate)
    requires Local(w, k) && w.calls[k].at.Completing?
    ensures var w' := AfterComplete(w, k, fate);
            && w' == Replace(w, k, w'.calls[k], w'.table, w'.gate)
            && Allowed(w, k, w'.calls[k], w'.table, w'.gate)
  {
  }

  lemma FinishAllowed(w: World, k: nat, fate: Fate)
    requires Local(w, k) && w.calls[k].at.Finishing?
    ensures var w' := AfterFinish(w, k, fate);
            && w' == Replace(w, k, w'.calls[k], w'.table, w'.gate)
            && Allowed(w, k, w'.calls[k], w'.table, w'.gate)
  {
  }

  /** Steps that leave the ledger alone: the call moves on under its guard, or drops it. */
  lemma MoveAllowed(w: World, k: nat, at: Counter, g: Gate)
    requires Local(w, k) && Worse(w.gate, g)
    requires Guarded(at) ==> Guarded(w.calls[k].at)
    requires at.Leaving? ==> !Guarded(w.calls[k].at) || g == Failed
    requires Unclaimed(at) ==> Unclaimed(w.calls[k].at)
    requires at.Leaving? ==> Emitted(at.reply) && !at.reply.Success? && !at.durable && (w.calls[k].claimed ==> at.reply == RuntimeFailed)
    requires at.Finishing? ==> RecordedCode(at.terminal, at.code) && at.failure == Recorded(at.terminal, at.code)
    requires Registered(at) && !at.Holding?
    ensures Allowed(w, k, w.calls[k].(at := at), w.table, g)
  {
  }

  lemma MoveKeeps(limits: Limits, w: World, k: nat, at: Counter, w': World)
    requires Inv(limits, w) && k in w.calls && Registered(w.calls[k].at) && w' == Move(w, k, at)
    requires Guarded(at) <==> Guarded(w.calls[k].at)
    requires Unclaimed(at) ==> Unclaimed(w.calls[k].at)
    requires at.Leaving? ==> Emitted(at.reply) && !at.reply.Success? && !at.durable && (w.calls[k].claimed ==> at.reply == RuntimeFailed)
    requires at.Finishing? ==> RecordedCode(at.terminal, at.code) && at.failure == Recorded(at.terminal, at.code)
    requires Registered(at) && !at.Holding?
    ensures Inv(limits, w')
  {
    Localize(limits, w, k);
    MoveAllowed(w, k, at, w.gate);
    StepKeeps(limits, w, k, w.calls[k].(at := at), w.table, w.gate);
  }

  lemma AbandonKeeps(limits: Limits, w: World, k: nat, w': World)
    requires Inv(limits, w) && k in w.calls && Registered(w.calls[k].at) && w' == Abandoned(w, k)
    ensures Inv(limits, w')
  {
    Localize(limits, w, k);
    MoveAllowed(w, k, Leaving(RuntimeFailed, false), Failed);
    StepKeeps(limits, w, k, w.calls[k].(at := Leaving(RuntimeFailed, false)), w.table, Failed);
  }

  lemma StartKeeps(limits: Limits, w: World, k: nat, w': World)
    requires Inv(limits, w) && At(w, k, Holding)
    requires w' == Move(w, k, Ingesting).(starts := w.starts + multiset{w.calls[k].id})
    ensures Inv(limits, w')
  {
    var m := Move(w, k, Ingesting);
    MoveKeeps(limits, w, k, Ingesting, m);
    assert InvStarts(w') by {
      assert HeldBy(w.table, w.calls[k].id, Ingest, w.calls[k].digest, w.now);
    }
    AsideCovered(m, w');
    assert InvAnswers(w') && InvLeft(w') && InvHeld(w') && InvOrphans(w') && InvRows(w') && InvRegistry(limits, w');
  }

  // Steps that enter or leave the registry

  /** Guarded calls, the ledger and the runtime are left alone. */
  ghost predicate Aside(w: World, w': World) {
    && w'.table == w.table && w'.now == w.now && w'.gate == w.gate && w'.orphans == w.orphans
    && (forall j :: j in w.calls && Guarded(w.calls[j].at) ==> j in w'.calls && w'.calls[j] == w.calls[j])
  }

  lemma AsideCovered(w: World, w': World)
    requires InvCovered(w) && Aside(w, w')
    ensures InvCovered(w')
  {
    forall id | Owned(w, id) ensures Owned(w', id) {
      var j :| j in w.calls && w.calls[j].id == id && Guarded(w.calls[j].at);
      assert w'.calls[j].id == id;
    }
  }

  /** Call `k` is new or unguarded, and so it stays; any new answer is a true one. */
  ghost predicate Beside(w: World, w': World, k: nat) {
    && Aside(w, w') && w'.starts == w.starts
    && k in w'.calls && w'.calls == w.calls[k := w'.calls[k]]
    && (k in w.calls ==> !Guarded(w.calls[k].at))
    && !Guarded(w'.calls[k].at) && !w'.calls[k].at.Leaving? && (w'.calls[k].claimed ==> !Unclaimed(w'.calls[k].at))
    && (w'.calls[k].claimed ==> k in w.calls && w.calls[k] == w'.calls[k].(at := w.calls[k].at))
    && (forall a :: a in w'.answers ==> a in w.answers || Truthful(w.table, a))
  }

  lemma BesideAnswers(w: World, w': World, k: nat)
    requires InvAnswers(w) && Beside(w, w', k)
    ensures InvAnswers(w')
  {
  }

  lemma BesideHeld(w: World, w': World, k: nat)
    requires InvHeld(w) && InvOrphans(w) && Beside(w, w', k)
    ensures InvHeld(w') && InvOrphans(w')
  {
  }

  lemma BesideLeft(w: World, w': World, k: nat)
    requires InvLeft(w) && Beside(w, w', k)
    ensures InvLeft(w')
  {
  }

  lemma BesideStarts(w: World, w': World, k: nat)
    requires InvStarts(w) && Beside(w, w', k)
    ensures InvStarts(w')
  {
  }

  lemma BesideKeeps(limits: Limits, w: World, w': World, k: nat)
    requires Inv(limits, w) && Beside(w, w', k) && InvRegistry(limits, w')
    ensures Inv(limits, w')
  {
    AsideCovered(w, w');
    BesideAnswers(w, w', k);
    BesideHeld(w, w', k);
    BesideLeft(w, w', k);
    BesideStarts(w, w', k);
  }

  lemma ArriveKeeps(limits: Limits, w: World, k: nat, id: CommandId, digest: Digest, w': World)
    requires Inv(limits, w) && k !in w.calls && w' == w.(calls := w.calls[k := Call(id, digest, false, Entered)])
    ensures Inv(limits, w')
  {
    BesideKeeps(limits, w, w', k);
  }

  lemma AnsweredKeeps(limits: Limits, w: World, k: nat, reply: Reply, w': World)
    requires Inv(limits, w) && At(w, k, Entered) && Emitted(reply) && !reply.Success? && w' == Answered(w, k, reply, false)
    ensures Inv(limits, w')
  {
    BesideKeeps(limits, w, w', k);
  }

  lemma AdmitKeeps(limits: Limits, w: World, k: nat, w': World)
    requires Inv(limits, w) && At(w, k, Entered)
    requires Refusal(w.registry, limits, w.calls[k].id, w.calls[k].digest).None?
    requires w' == Move(w, k, Admitted).(registry := Admit(w.registry, w.calls[k].id, w.calls[k].digest))
    ensures Inv(limits, w')
  {
    AdmitConsistent(w.registry, limits, w.calls[k].id, w.calls[k].digest);
    BesideKeeps(limits, w, w', k);
  }

  lemma ReleaseRegistry(limits: Limits, w: World, k: nat, w': World)
    requires InvRegistry(limits, w) && k in w.calls && Registered(w.calls[k].at) && k in w'.calls
    requires w'.registry == Release(w.registry, w.calls[k].id)
    requires w'.calls == w.calls[k := w'.calls[k]] && !Registered(w'.calls[k].at)
    ensures InvRegistry(limits, w')
  {
    ReleaseConsistent(w.registry, limits, w.calls[k].id);
  }

  lemma ReleaseBeside(w: World, k: nat, w': World)
    requires InvAnswers(w) && k in w.calls && w.calls[k].at.Leaving?
    requires w' == Answered(w, k, w.calls[k].at.reply, w.calls[k].at.durable).(registry := w'.registry)
    ensures Beside(w, w', k)
  {
    assert Truthful(w.table, AnswerOf(w.calls[k]));
  }

  lemma GiveUpBeside(w: World, k: nat, w': World)
    requires k in w.calls && w.calls[k].at.Leaving? && w' == Move(w, k, Dropped).(registry := w'.registry)
    ensures Beside(w, w', k)
  {
  }

  lemma ReleaseKeeps(limits: Limits, w: World, k: nat, w': World)
    requires Inv(limits, w) && k in w.calls && w.calls[k].at.Leaving?
    requires w' == Answered(w, k, w.calls[k].at.reply, w.calls[k].at.durable).(registry := Release(w.registry, w.calls[k].id))
    ensures Inv(limits, w')
  {
    ReleaseRegistry(limits, w, k, w');
    ReleaseBeside(w, k, w');
    BesideKeeps(limits, w, w', k);
  }

  lemma GiveUpKeeps(limits: Limits, w: World, k: nat, w': World)
    requires Inv(limits, w) && k in w.calls && w.calls[k].at.Leaving?
    requires w' == Move(w, k, Dropped).(registry := Release(w.registry, w.calls[k].id))
    ensures Inv(limits, w')
  {
    ReleaseRegistry(limits, w, k, w');
    GiveUpBeside(w, k, w');
    BesideKeeps(limits, w, w', k);
  }

  lemma OrphanedKeeps(limits: Limits, w: World, job: Job, w': World)
    requires Inv(limits, w) && w.gate == Failed && w' == w.(orphans := w.orphans + {job})
    requires !job.ClaimJob? ==> job.id in w.table
    requires forall k :: k in w.calls && Guarded(w.calls[k].at) ==> w.calls[k].id != job.id
    requires job.FinishJob? ==> RecordedCode(job.terminal, job.code)
    ensures Inv(limits, w')
  {
    assert InvOrphans(w') && InvAnswers(w') && InvCovered(w');
  }

  /** Dropping is failing the runtime, leaving, and letting the job run on alone. */
  lemma DropParts(w: World, k: nat, w2: World)
    requires k in w.calls
    requires w2 == Move(Abandoned(w, k), k, Dropped).(registry := Release(w.registry, w.calls[k].id))
    ensures AfterDrop(w, k) == w2.(orphans := w2.orphans + {DropJob(w.calls[k])})
  {
    assert AfterDrop(w, k).calls == w2.calls;
  }

  lemma DropLeavesNone(limits: Limits, w: World, k: nat, w2: World)
    requires InvRegistry(limits, w) && Local(w, k)
    requires w2 == Move(Abandoned(w, k), k, Dropped).(registry := Release(w.registry, w.calls[k].id))
    requires w.calls[k].at.Claiming? || w.calls[k].at.Completing? || w.calls[k].at.Finishing?
    ensures var job := DropJob(w.calls[k]);
            && (!job.ClaimJob? ==> job.id in w2.table)
            && (job.FinishJob? ==> RecordedCode(job.terminal, job.code))
            && (forall j :: j in w2.calls && Guarded(w2.calls[j].at) ==> w2.calls[j].id != job.id)
  {
  }

  lemma DropKeeps(limits: Limits, w: World, k: nat, w': World)
    requires Inv(limits, w) && k in w.calls && w' == AfterDrop(w, k)
    requires w.calls[k].at.Claiming? || w.calls[k].at.Completing? || w.calls[k].at.Finishing?
    ensures Inv(limits, w')
  {
    var w2 := Move(Abandoned(w, k), k, Dropped).(registry := Release(w.registry, w.calls[k].id));
    DropParts(w, k, w2);
    Localize(limits, w, k);
    AbandonKeeps(limits, w, k, Abandoned(w, k));
    GiveUpKeeps(limits, Abandoned(w, k), k, w2);
    DropLeavesNone(limits, w, k, w2);
    OrphanedKeeps(limits, w2, DropJob(w.calls[k]), w');
  }

  // Steps outside the calls

  /** The ledger changes under the calls: resolved and held rows stay, no claim of this runtime appears. */
  ghost predicate Below(w: World, u: Table, g: Gate) {
    && Evolves(w.table, u) && Worse(w.gate, g)
    && (forall k :: k in w.calls && Guarded(w.calls[k].at) ==>
          w.calls[k].id in w.table && w.calls[k].id in u && u[w.calls[k].id] == w.table[w.calls[k].id])
    && (g == Failed || forall id :: ClaimedNow(u, id, w.now) ==> ClaimedNow(w.table, id, w.now))
  }

  lemma BelowCovered(w: World, u: Table, g: Gate, w': World)
    requires InvCovered(w) && Below(w, u, g) && w' == w.(table := u, gate := g, orphans := w'.orphans)
    ensures InvCovered(w')
  {
    forall id | Owned(w, id) ensures Owned(w', id) {
      var j :| j in w.calls && w.calls[j].id == id && Guarded(w.calls[j].at);
      assert w'.calls[j].id == id;
    }
  }

  lemma BelowAnswers(w: World, u: Table, w': World)
    requires InvAnswers(w) && Evolves(w.table, u) && w'.table == u && w'.calls == w.calls && w'.answers == w.answers
    ensures InvAnswers(w')
  {
    forall a | a in w.answers ensures Truthful(u, a) {
      TruthStays(w.table, u, a);
    }
    forall j | j in w.calls && w.calls[j].at.Leaving? ensures Truthful(u, AnswerOf(w.calls[j])) {
      TruthStays(w.table, u, AnswerOf(w.calls[j]));
    }
  }

  lemma BelowHeld(w: World, u: Table, g: Gate, w': World)
    requires InvHeld(w) && Below(w, u, g) && w'.table == u && w'.calls == w.calls && w'.now == w.now
    ensures InvHeld(w')
  {
  }

  lemma BelowLeft(w: World, u: Table, g: Gate, w': World)
    requires InvLeft(w) && Below(w, u, g) && w' == w.(table := u, gate := g, orphans := w'.orphans)
    ensures InvLeft(w')
  {
  }

  lemma BelowOrphans(w: World, u: Table, g: Gate, w': World)
    requires InvOrphans(w) && Below(w, u, g) && w' == w.(table := u, gate := g, orphans := w'.orphans) && w'.orphans <= w.orphans
    ensures InvOrphans(w')
  {
  }

  lemma BelowStarts(w: World, u: Table, g: Gate, w': World)
    requires InvStarts(w) && Below(w, u, g) && w' == w.(table := u, gate := g, orphans := w'.orphans)
    ensures InvStarts(w')
  {
  }

  lemma BelowKeeps(limits: Limits, w: World, u: Table, g: Gate, orphans: set<Job>, w': World)
    requires Inv(limits, w) && Below(w, u, g) && orphans <= w.orphans && InvRows(w.(table := u))
    requires w' == w.(table := u, gate := g, orphans := orphans)
    ensures Inv(limits, w')
  {
    BelowCovered(w, u, g, w');
    BelowAnswers(w, u, w');
    BelowHeld(w, u, g, w');
    BelowLeft(w, u, g, w');
    BelowOrphans(w, u, g, w');
    BelowStarts(w, u, g, w');
  }

  lemma JobRow(w: World, job: Job)
    requires InvRows(w) && (job.FinishJob? ==> RecordedCode(job.terminal, job.code))
    ensures RowStep(w.table, JobTable(w, job), job.id, w.now)
    ensures job.ClaimJob? && job.id in w.table && JobTable(w, job) != w.table ==> w.table[job.id].runtime != w.now
  {
  }

  lemma RowBelow(w: World, u: Table, id: CommandId)
    requires InvHeld(w) && InvRows(w) && w.gate == Failed && RowStep(w.table, u, id, w.now)
    requires u == w.table || id !in w.table || forall k :: k in w.calls && Guarded(w.calls[k].at) ==> w.calls[k].id != id
    ensures Below(w, u, Failed) && InvRows(w.(table := u))
  {
  }

  lemma OrphanKeeps(limits: Limits, w: World, job: Job, w': World)
    requires Inv(limits, w) && job in w.orphans && w' == w.(table := JobTable(w, job), orphans := w.orphans - {job})
    ensures Inv(limits, w')
  {
    JobRow(w, job);
    RowBelow(w, JobTable(w, job), job.id);
    BelowKeeps(limits, w, JobTable(w, job), Failed, w.orphans - {job}, w');
  }

  lemma ClassifyBelow(w: World, id: CommandId, u: Table)
    requires InvHeld(w) && InvRows(w) && u == Classify(w.table, w.now, id)
    ensures Below(w, u, w.gate) && InvRows(w.(table := u))
  {
  }

  lemma OthersBelow(w: World, u: Table, g: Gate)
    requires InvHeld(w) && InvRows(w) && OthersOnly(w.table, u, w.now) && Worse(w.gate, g)
    ensures Below(w, u, g) && InvRows(w.(table := u))
  {
  }

  lemma ClassifyKeeps(limits: Limits, w: World, id: CommandId, w': World)
    requires Inv(limits, w) && w' == w.(table := Classify(w.table, w.now, id))
    ensures Inv(limits, w')
  {
    ClassifyBelow(w, id, Classify(w.table, w.now, id));
    BelowKeeps(limits, w, Classify(w.table, w.now, id), w.gate, w.orphans, w');
  }

  lemma OthersKeep(limits: Limits, w: World, u: Table, g: Gate, w': World)
    requires Inv(limits, w) && OthersOnly(w.table, u, w.now) && Worse(w.gate, g) && w' == w.(table := u, gate := g)
    ensures Inv(limits, w')
  {
    OthersBelow(w, u, g);
    BelowKeeps(limits, w, u, g, w.orphans, w');
  }

  lemma RestartKeeps(limits: Limits, w: World, next: Runtime, w': World)
    requires Inv(limits, w) && next > w.now && w' == World(w.table, next, Open, State(map[], 0), map[], {}, w.starts, w.answers)
    ensures Inv(limits, w')
  {
  }

  // The inductive step

  lemma AcquireStep(limits: Limits, w: World, k: nat, w': World)
    requires Inv(limits, w) && At(w, k, Entered) && w' == Apply(limits, w, Acquire(k))
    ensures Inv(limits, w')
  {
    var refusal := Refusal(w.registry, limits, w.calls[k].id, w.calls[k].digest);
    if refusal.Some? {
      AnsweredKeeps(limits, w, k, refusal.value, w');
    } else {
      AdmitKeeps(limits, w, k, w');
    }
  }

  lemma EntryStep(limits: Limits, w: World, a: Action, w': World)
    requires Inv(limits, w) && Enabled(w, a) && w' == Apply(limits, w, a) && (a.Arrive? || a.TurnAway? || a.ReleaseCall?)
    ensures Inv(limits, w')
  {
    match a
    case Arrive(k, id, digest) => ArriveKeeps(limits, w, k, id, digest, w');
    case TurnAway(k, reply) => AnsweredKeeps(limits, w, k, reply, w');
    case ReleaseCall(k) => ReleaseKeeps(limits, w, k, w');
  }

  lemma AdmittedStep(limits: Limits, w: World, a: Action, w': World)
    requires Inv(limits, w) && Enabled(w, a) && w' == Apply(limits, w, a) && (a.Withdraw? || a.SubmitClaim?)
    ensures Inv(limits, w')
  {
    match a
    case Withdraw(k, reply) => MoveKeeps(limits, w, k, Leaving(reply, false), w');
    case SubmitClaim(k) => MoveKeeps(limits, w, k, Claiming, w');
  }

  lemma FinishedKeeps(limits: Limits, w: World, k: nat, v: Verdict)
    requires Inv(limits, w) && k in w.calls && Guarded(w.calls[k].at) && v.Record? && Faithful(v)
    ensures Inv(limits, Finished(w, k, v.terminal, v.code, v.reply))
  {
    MoveKeeps(limits, w, k, Finishing(v.terminal, v.code, v.reply), Finished(w, k, v.terminal, v.code, v.reply));
  }

  lemma BlobErrorStep(limits: Limits, w: World, k: nat, v: Verdict)
    requires Inv(limits, w) && At(w, k, Ingesting) && Faithful(v)
    ensures Inv(limits, if v.Record? then Finished(w, k, v.terminal, v.code, v.reply) else Abandoned(w, k))
  {
    if v.Record? {
      FinishedKeeps(limits, w, k, v);
    } else {
      AbandonKeeps(limits, w, k, Abandoned(w, k));
    }
  }

  lemma VerdictStep(limits: Limits, w: World, a: Action)
    requires Inv(limits, w) && Enabled(w, a) && (a.StopHeld? || a.IngestStops? || a.IngestFails? || a.IdsFail?)
    ensures Inv(limits, Apply(limits, w, a))
  {
    if a.IngestFails? {
      TablesAreFaithful(a.error, Cancelled);
      BlobErrorStep(limits, w, a.k, MapBlobError(a.error));
    } else {
      var v := if a.IdsFail? then Record(false, IdGenerationUnavailable,
                                         Failure(IdGenerationUnavailable, AfterOperatorOrRuntimeAction))
               else Record(true, StopCode(a.stop), StoppedAfterClaim(a.stop));
      TablesAreFaithful(BlobIo, if a.IdsFail? then Cancelled else a.stop);
      FinishedKeeps(limits, w, a.k, v);
    }
  }

  lemma GuardedStep(limits: Limits, w: World, a: Action, w': World)
    requires Inv(limits, w) && Enabled(w, a) && w' == Apply(limits, w, a)
    requires a.StartIngest? || a.IngestStores? || a.SubmitComplete? || a.AbandonClaim?
    ensures Inv(limits, w')
  {
    match a
    case StartIngest(k) => StartKeeps(limits, w, k, w');
    case IngestStores(k) => MoveKeeps(limits, w, k, BlobStored, w');
    case SubmitComplete(k, result) => MoveKeeps(limits, w, k, Completing(result), w');
    case AbandonClaim(k) => AbandonKeeps(limits, w, k, w');
  }

  lemma StoreStep(limits: Limits, w: World, a: Action)
    requires Inv(limits, w) && Enabled(w, a) && (a.ClaimReturns? || a.CompleteReturns? || a.FinishReturns?)
    ensures Inv(limits, Apply(limits, w, a))
  {
    Localize(limits, w, a.k);
    match a {
      case ClaimReturns(k, fate) => ClaimAllowed(w, k, fate);
      case CompleteReturns(k, fate) => CompleteAllowed(w, k, fate);
      case FinishReturns(k, fate) => FinishAllowed(w, k, fate);
    }
    var w' := Apply(limits, w, a);
    StepKeeps(limits, w, a.k, w'.calls[a.k], w'.table, w'.gate);
  }

  lemma OrphanStep(limits: Limits, w: World, a: Action, w': World)
    requires Inv(limits, w) && Enabled(w, a) && w' == Apply(limits, w, a) && (a.DropFuture? || a.RunOrphan?)
    ensures Inv(limits, w')
  {
    match a
    case DropFuture(k) => DropKeeps(limits, w, k, w');
    case RunOrphan(job) => OrphanKeeps(limits, w, job, w');
  }

  lemma OutsideStep(limits: Limits, w: World, a: Action, w': World)
    requires Inv(limits, w) && Enabled(w, a) && w' == Apply(limits, w, a)
    requires a.ClassifyRow? || a.CloseGate? || a.OtherCommand? || a.Restart?
    ensures Inv(limits, w')
  {
    match a
    case ClassifyRow(id) => ClassifyKeeps(limits, w, id, w');
    case CloseGate => OthersKeep(limits, w, w.table, Failed, w');
    case OtherCommand(u, g) => OthersKeep(limits, w, u, g, w');
    case Restart(next) => RestartKeeps(limits, w, next, w');
  }

  /** Every action of every call, job and outside party keeps the invariant. */
  lemma ActionKeeps(limits: Limits, w: World, a: Action)
    requires Inv(limits, w) && Enabled(w, a)
    ensures Inv(limits, Apply(limits, w, a))
  {
    if a.ClaimReturns? || a.CompleteReturns? || a.FinishReturns? {
      StoreStep(limits, w, a);
    } else if a.Acquire? {
      AcquireStep(limits, w, a.k, Apply(limits, w, a));
    } else if a.Arrive? || a.TurnAway? || a.ReleaseCall? {
      EntryStep(limits, w, a, Apply(limits, w, a));
    } else if a.Withdraw? || a.SubmitClaim? {
      AdmittedStep(limits, w, a, Apply(limits, w, a));
    } else if a.DropFuture? || a.RunOrphan? {
      OrphanStep(limits, w, a, Apply(limits, w, a));
    } else if a.ClassifyRow? || a.CloseGate? || a.OtherCommand? || a.Restart? {
      OutsideStep(limits, w, a, Apply(limits, w, a));
    } else if a.StopHeld? || a.IngestStops? || a.IngestFails? || a.IdsFail? {
      VerdictStep(limits, w, a);
    } else {
      GuardedStep(limits, w, a, Apply(limits, w, a));
    }
  }
}
