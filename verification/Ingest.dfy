/** The retry advice of the ingest service and its error tables. */
module IngestReplies {
  import opened Codes
  import opened Options

  datatype IngestRetry =
    | No
    | SameCommandAfterBoundedDelay
    | FreshCommandAfterBoundedDelay
    | AfterSourceStabilizesWithSameCommand
    | AfterSourceStabilizesWithFreshCommand
    | AfterOperatorOrRuntimeAction

  /** What a call answers.  `RuntimeFailed` is no response: the daemon stops serving. */
  datatype Reply = Success(result: nat) | Failure(code: ErrorCode, retry: IngestRetry) | RuntimeFailed

  /** `retry_action` of the daemon. */
  function Action(retry: IngestRetry): RetryAction {
    match retry
    case No => NoRetry
    case SameCommandAfterBoundedDelay => SameCommand
    case FreshCommandAfterBoundedDelay => FreshCommand
    case AfterSourceStabilizesWithSameCommand => SourceStableSameCommand
    case AfterSourceStabilizesWithFreshCommand => SourceStableFreshCommand
    case AfterOperatorOrRuntimeAction => OperatorOrRuntimeAction
  }

  /** The wire encoder accepts the reply. */
  predicate Sendable(r: Reply) {
    r.Failure? ==> Encodable(r.code, Action(r.retry))
  }

  function StoppedBeforeClaim(stop: Stop): Reply {
    Failure(StopCode(stop), SameCommandAfterBoundedDelay)
  }

  function StoppedAfterClaim(stop: Stop): Reply {
    Failure(StopCode(stop), FreshCommandAfterBoundedDelay)
  }

  /** The errors of opening the source file; `OtherSourceError` stands for a later addition. */
  datatype SourceError = InvalidPath | UnsupportedType | SourceIo | Modified | OtherSourceError

  function MapSourceError(e: SourceError): Reply {
    match e
    case InvalidPath => Failure(ValidationError, No)
    case UnsupportedType => Failure(ValidationError, No)
    case SourceIo => Failure(StorageIoError, SameCommandAfterBoundedDelay)
    case Modified => Failure(SourceModifiedDuringIngest, AfterSourceStabilizesWithSameCommand)
    case OtherSourceError => RuntimeFailed
  }

  function MapClaimError(e: StoreError): Reply {
    match e
    case Validation => Failure(ValidationError, No)
    case StoreConflict => Failure(Conflict, No)
    case StoreIdGenerationUnavailable => Failure(IdGenerationUnavailable, AfterOperatorOrRuntimeAction)
    case StoreBusy => Failure(StorageBusy, SameCommandAfterBoundedDelay)
    case StoreConfiguration => Failure(StorageConfigurationError, AfterOperatorOrRuntimeAction)
    case StoreBackpressure => Failure(Backpressure, SameCommandAfterBoundedDelay)
    case ShuttingDown => Failure(StorageIoError, AfterOperatorOrRuntimeAction)
    case _ => RuntimeFailed
  }

  /** The advice given again whenever a recorded rejection is replayed. */
  function RetryForTerminal(code: ErrorCode): IngestRetry {
    match code
    case SourceModifiedDuringIngest => AfterSourceStabilizesWithFreshCommand
    case ValidationError => FreshCommandAfterBoundedDelay
    case StorageIoError => FreshCommandAfterBoundedDelay
    case Backpressure => FreshCommandAfterBoundedDelay
    case DeadlineExceeded => FreshCommandAfterBoundedDelay
    case OperationCancelled => FreshCommandAfterBoundedDelay
    case _ => AfterOperatorOrRuntimeAction
  }

  /** The errors of the blob store after the claim. */
  datatype BlobError =
    | BlobValidation | SourceModified | BlobIo | BlobCorruption | BlobConfiguration
    | BlobRecoveryRequired | BlobConflict | BlobBackpressure | EntropyUnavailable
    | StagingNamespaceUnavailable | CleanupFailed | BlobShuttingDown | BlobInternal

  /** What a post-claim failure records, and what the caller is told. */
  datatype Verdict = Record(terminal: bool, code: ErrorCode, reply: Reply) | Abandon

  function Terminal(code: ErrorCode, retry: IngestRetry): Verdict {
    Record(true, code, Failure(code, retry))
  }

  /** `finish_storage_error`. */
  function MapBlobError(e: BlobError): Verdict {
    match e
    case BlobValidation => Terminal(ValidationError, FreshCommandAfterBoundedDelay)
    case SourceModified => Terminal(SourceModifiedDuringIngest, AfterSourceStabilizesWithFreshCommand)
    case BlobIo => Terminal(StorageIoError, FreshCommandAfterBoundedDelay)
    case BlobCorruption => Terminal(StorageCorruption, AfterOperatorOrRuntimeAction)
    case BlobConfiguration => Terminal(StorageConfigurationError, AfterOperatorOrRuntimeAction)
    case BlobBackpressure => Terminal(Backpressure, FreshCommandAfterBoundedDelay)
    case EntropyUnavailable => Terminal(IdGenerationUnavailable, AfterOperatorOrRuntimeAction)
    case BlobRecoveryRequired =>
      Record(false, StorageConfigurationError, Failure(StorageConfigurationError, AfterOperatorOrRuntimeAction))
    case StagingNamespaceUnavailable =>
      Record(false, StorageConfigurationError, Failure(StorageConfigurationError, AfterOperatorOrRuntimeAction))
    case _ => Abandon
  }

  /** What a row's recorded failure says to every later caller. */
  function Recorded(terminal: bool, code: ErrorCode): Reply {
    Failure(code, if terminal then RetryForTerminal(code) else AfterOperatorOrRuntimeAction)
  }

  /** The codes the ingest path ever records. */
  predicate RecordedCode(terminal: bool, code: ErrorCode) {
    if terminal then
      code in {ValidationError, SourceModifiedDuringIngest, StorageIoError, StorageCorruption,
               StorageConfigurationError, Backpressure, IdGenerationUnavailable, DeadlineExceeded,
               OperationCancelled}
    else
      code in {StorageConfigurationError, IdGenerationUnavailable}
  }

  /** A verdict says at once what its record will say later, in a form the encoder accepts. */
  predicate Faithful(v: Verdict) {
    v.Record? ==> RecordedCode(v.terminal, v.code) && v.reply == Recorded(v.terminal, v.code)
  }

  lemma TablesAreFaithful(e: BlobError, stop: Stop)
    ensures Faithful(MapBlobError(e))
    ensures Faithful(Record(true, StopCode(stop), StoppedAfterClaim(stop)))
    ensures Faithful(Record(false, IdGenerationUnavailable, Failure(IdGenerationUnavailable, AfterOperatorOrRuntimeAction)))
    ensures Faithful(Record(false, StorageConfigurationError, Failure(StorageConfigurationError, AfterOperatorOrRuntimeAction)))
  {
  }

  /** Every failure the ingest path answers with, by its advice. */
  predicate Emitted(r: Reply) {
    r.Failure? ==>
      match r.retry
      case No => r.code in {ValidationError, Conflict}
      case SameCommandAfterBoundedDelay =>
        r.code in {OperationCancelled, DeadlineExceeded, StorageIoError, CommandInProgress, Backpressure, StorageBusy}
      case FreshCommandAfterBoundedDelay =>
        r.code in {ValidationError, StorageIoError, Backpressure, DeadlineExceeded, OperationCancelled}
      case AfterSourceStabilizesWithSameCommand => r.code == SourceModifiedDuringIngest
      case AfterSourceStabilizesWithFreshCommand => r.code == SourceModifiedDuringIngest
      case AfterOperatorOrRuntimeAction =>
        r.code in {IdGenerationUnavailable, StorageConfigurationError, StorageIoError, StorageCorruption}
  }

  lemma EmittedIsSendable(r: Reply)
    requires Emitted(r)
    ensures Sendable(r)
  {
  }

  /** A claim's error is told under the code it has everywhere else. */
  lemma ClaimErrorsKeepTheirCode(e: StoreError)
    ensures MapClaimError(e).Failure? ==> MapClaimError(e).code == CodeOf(e)
    ensures !MapClaimError(e).Success?
  {
  }

  lemma TablesAreEmitted(s: SourceError, e: StoreError, stop: Stop, terminal: bool, code: ErrorCode)
    ensures Emitted(MapSourceError(s)) && Emitted(MapClaimError(e)) && Emitted(StoppedBeforeClaim(stop))
    ensures RecordedCode(terminal, code) ==> Emitted(Recorded(terminal, code))
  {
  }
}

/** The in-memory admission registry: at most one call per command id, within two capacities. */
module Admission {
  import opened Codes
  import opened IngestReplies
  import opened Ledger
  import opened Options

  datatype Limits = Limits(bindings: nat, executions: nat)

  datatype State = State(bindings: map<CommandId, Digest>, executions: nat)

  /** Why a call is turned away, if it is. */
  function Refusal(s: State, limits: Limits, id: CommandId, digest: Digest): Option<Reply> {
    if id in s.bindings then
      Some(if s.bindings[id] == digest then Failure(CommandInProgress, SameCommandAfterBoundedDelay)
           else Failure(Conflict, No))
    else if |s.bindings| >= limits.bindings || s.executions >= limits.executions then
      Some(Failure(Backpressure, SameCommandAfterBoundedDelay))
    else None
  }

  function Admit(s: State, id: CommandId, digest: Digest): State {
    State(s.bindings[id := digest], s.executions + 1)
  }

  function SaturatingDecrement(n: nat): nat {
    if n == 0 then 0 else n - 1
  }

  function Release(s: State, id: CommandId): State {
    State(s.bindings - {id}, SaturatingDecrement(s.executions))
  }

  /** The count is the number of bindings, and both stay within both capacities. */
  predicate Consistent(s: State, limits: Limits) {
    s.executions == |s.bindings| <= limits.bindings && s.executions <= limits.executions
  }

  lemma AdmitConsistent(s: State, limits: Limits, id: CommandId, digest: Digest)
    requires Consistent(s, limits) && Refusal(s, limits, id, digest).None?
    ensures Consistent(Admit(s, id, digest), limits)
  {
  }

  lemma ReleaseConsistent(s: State, limits: Limits, id: CommandId)
    requires Consistent(s, limits) && id in s.bindings
    ensures Consistent(Release(s, id), limits)
  {
    assert |s.bindings| == |s.bindings.Keys|;
    assert (s.bindings - {id}).Keys == s.bindings.Keys - {id};
  }

  /** `AdmissionRegistry` with `AdmissionOwner::acquire` and its drop; each runs under the mutex. */
  class Registry {
    const limits: Limits
    var bindings: map<CommandId, Digest>
    var executions: nat

    function View(): State
      reads this
    {
      State(bindings, executions)
    }

    ghost predicate Valid()
      reads this
    {
      Consistent(View(), limits)
    }

    constructor (limits: Limits)
      ensures Valid() && this.limits == limits && View() == State(map[], 0)
    {
      this.limits := limits;
      bindings := map[];
      executions := 0;
    }

    method Acquire(id: CommandId, digest: Digest) returns (refusal: Option<Reply>)
      requires Valid()
      modifies this
      ensures Valid()
      ensures refusal == Refusal(old(View()), limits, id, digest)
      ensures View() == if refusal.None? then Admit(old(View()), id, digest) else old(View())
    {
      if id in bindings {
        return Some(if bindings[id] == digest then Failure(CommandInProgress, SameCommandAfterBoundedDelay)
                    else Failure(Conflict, No));
      }
      if |bindings| >= limits.bindings || executions >= limits.executions {
        return Some(Failure(Backpressure, SameCommandAfterBoundedDelay));
      }
      AdmitConsistent(View(), limits, id, digest);
      bindings := bindings[id := digest];
      executions := executions + 1;
      refusal := None;
    }

    method Drop(id: CommandId)
      requires Valid() && id in bindings
      modifies this
      ensures Valid()
      ensures View() == Release(old(View()), id)
    {
      ReleaseConsistent(View(), limits, id);
      bindings := bindings - {id};
      executions := SaturatingDecrement(executions);
    }
  }
}
