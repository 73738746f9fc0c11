module Options {

  datatype Option<T> = None | Some(value: T)
}

/** The public error codes, the retry advice attached to them, and the matrix of pairs the wire
    encoder lets through. */
module Codes {
  import opened Options

  datatype ErrorCode =
    | ValidationError | AuthenticationError | AuthorizationDenied | NotFound | Conflict
    | InvalidTransition | SourceModifiedDuringIngest | StorageIoError | StorageCorruption
    | StorageBusy | StorageConfigurationError | IpcTransportError | ProtocolVersionUnsupported
    | DeadlineExceeded | OperationCancelled | ProviderValidation | InvalidCredential
    | ProviderRateLimited | ProviderTimeout | ProviderUnavailable | SubmissionUnknown
    | PluginProtocolViolation | SandboxUnavailable | PluginRevoked | Backpressure
    | InternalError | CommandInProgress | AdminAuthUnavailable | UnsupportedCapability
    | IdGenerationUnavailable | RevisionExhausted

  datatype RetryAction =
    | NoRetry | SameCommand | FreshCommand | SourceStableSameCommand | SourceStableFreshCommand
    | OperatorOrRuntimeAction

  /** The errors of the store port. */
  datatype StoreError =
    | Validation | StoreNotFound | StoreConflict | StoreInvalidTransition | StoreRevisionExhausted
    | StoreIdGenerationUnavailable | StoreBusy | StoreIo | StoreCorruption | StoreConfiguration
    | StoreBackpressure | StoreCancelled | StoreDeadlineExceeded | ShuttingDown | Internal

  datatype Stop = Cancelled | DeadlineReached

  datatype Result<T> = Ok(value: T) | Err(error: StoreError)

  function StopCode(stop: Stop): ErrorCode {
    match stop
    case Cancelled => OperationCancelled
    case DeadlineReached => DeadlineExceeded
  }

  function CodeOf(e: StoreError): ErrorCode {
    match e
    case Validation => ValidationError
    case StoreNotFound => NotFound
    case StoreConflict => Conflict
    case StoreInvalidTransition => InvalidTransition
    case StoreRevisionExhausted => RevisionExhausted
    case StoreIdGenerationUnavailable => IdGenerationUnavailable
    case StoreBusy => StorageBusy
    case StoreIo => StorageIoError
    case ShuttingDown => StorageIoError
    case StoreCorruption => StorageCorruption
    case StoreConfiguration => StorageConfigurationError
    case StoreBackpressure => Backpressure
    case StoreCancelled => OperationCancelled
    case StoreDeadlineExceeded => DeadlineExceeded
    case Internal => InternalError
  }

  /** The codes of the store's errors. */
  predicate StoreCode(code: ErrorCode) {
    code in {ValidationError, NotFound, Conflict, InvalidTransition, RevisionExhausted, IdGenerationUnavailable,
             StorageBusy, StorageIoError, StorageCorruption, StorageConfigurationError, Backpressure,
             OperationCancelled, DeadlineExceeded, InternalError}
  }

  /** The operation error/retry matrix. */
  predicate ValidPair(code: ErrorCode, retry: RetryAction) {
    match code
    case ValidationError => retry in {NoRetry, FreshCommand}
    case AuthenticationError => retry == OperatorOrRuntimeAction
    case ProtocolVersionUnsupported => retry == OperatorOrRuntimeAction
    case Conflict => retry == NoRetry
    case NotFound => retry == NoRetry
    case SourceModifiedDuringIngest => retry in {SourceStableSameCommand, SourceStableFreshCommand}
    case StorageIoError => retry in {SameCommand, FreshCommand, OperatorOrRuntimeAction}
    case StorageCorruption => retry == OperatorOrRuntimeAction
    case StorageConfigurationError => retry == OperatorOrRuntimeAction
    case IdGenerationUnavailable => retry == OperatorOrRuntimeAction
    case IpcTransportError => retry == SameCommand
    case StorageBusy => retry == SameCommand
    case CommandInProgress => retry == SameCommand
    case DeadlineExceeded => retry in {SameCommand, FreshCommand}
    case OperationCancelled => retry in {SameCommand, FreshCommand}
    case Backpressure => retry in {SameCommand, FreshCommand}
    case _ => false
  }

  /** Codes with a static message; the encoder refuses the others. */
  predicate HasSafeMessage(code: ErrorCode) {
    code in {ValidationError, AuthenticationError, Conflict, NotFound, SourceModifiedDuringIngest,
             StorageIoError, StorageCorruption, StorageBusy, StorageConfigurationError,
             IpcTransportError, ProtocolVersionUnsupported, DeadlineExceeded, OperationCancelled,
             Backpressure, CommandInProgress, IdGenerationUnavailable}
  }

  /** `operation_error_response` builds an envelope. */
  predicate Encodable(code: ErrorCode, retry: RetryAction) {
    HasSafeMessage(code) && ValidPair(code, retry)
  }

  /** The advice `materialize_error_response` attaches; other codes end the connection. */
  function MaterializeRetry(code: ErrorCode): Option<RetryAction> {
    match code
    case ValidationError => Some(NoRetry)
    case NotFound => Some(NoRetry)
    case Conflict => Some(NoRetry)
    case StorageBusy => Some(SameCommand)
    case CommandInProgress => Some(SameCommand)
    case StorageIoError => Some(SameCommand)
    case Backpressure => Some(FreshCommand)
    case DeadlineExceeded => Some(FreshCommand)
    case OperationCancelled => Some(FreshCommand)
    case StorageCorruption => Some(OperatorOrRuntimeAction)
    case StorageConfigurationError => Some(OperatorOrRuntimeAction)
    case IdGenerationUnavailable => Some(OperatorOrRuntimeAction)
    case _ => None
  }
}
