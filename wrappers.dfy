/**
 * Shared result types and the framework's error codes.
 *
 * Every operation of the framework that throws a CException is modelled as
 * returning `Result<T>`; the `ErrorCode` constructor names the code the
 * exception carries (eErrorCode in Framework.hpp).
 */
module Wrappers {

  datatype Option<T> = None | Some(value: T)

  datatype ErrorCode =
    | InvalidParam
    | StateAlreadyExists
    | StateNotFound
    | NextStateHasNotBeenSet
    | ModuleAlreadyExists
    | InvalidChannelNumber
    | ModuleNotFound
    | InvalidAxisLink
    | CouldNotPowerAxis
    | CouldNotReferenceAxis
    | InvalidSpeedValue
    | InvalidAccelerationValue
    | CouldNotMoveAxis
    | ServerIsAlreadyRunning
    | ServerIsNotRunning
    | UnknownTcpServerState
    | UnknownTcpRecvState
    | UnknownTcpSendState
    | InvalidTcpBufferSize
    | TcpSendBufferSizeExceeded
    | TcpSendBufferIsFull
    | PacketHandlerAlreadyRegistered
    | InvalidPayload
    | InvalidTcpResponse
    | NoListToWriteTo
    | TooManyOpenLists
    | NoListEntriesLeft
    | InvalidPayloadOffset
    | InvalidListId
    | ListIsNotInQueue
    | NotWritingToAnyList
    | NotInListCreation
    | ListIsEmpty
    | ListDoesNotExist
    | ListIsNotFinished
    | InvalidName
    | DuplicateSignalDefinition
    | CannotRegisterSignal
    | CannotBuildSignalInstances
    | CannotRegisterParameter
    | DuplicateSignalParameterName
    | CannotRegisterResult
    | DuplicateSignalResultName
    | InvalidSignalQueueSize
    | SignalInstancesAlreadyBuilt
    | SignalDataMissingMemory
    | SignalMemoryAllocationError
    | CouldNotCheckSignal
    | CouldNotWriteDoubleToParameter
    | CouldNotReadDoubleFromParameter
    | SignalDataWriteOutOfRange
    | SignalDataReadOutOfRange
    | ValueIsOutsideOfInteger32Range
    | ValueIsOutsideOfUnsignedInteger32Range
    | SignalParameterNotFound
    | SignalResultNotFound
    | CouldNotReadIntegerFromParameter
    | CouldNotWriteIntegerToParameter
    | InvalidPayloadAddress
    | InvalidPayloadReadOperation
    | InvalidSignalSlotIndex
    | PayloadSignalSlotAlreadyTaken
    | SignalSlotIsEmpty
    | SignalHandlerNotFound
    | SignalHasNoInstances
    | CouldNotPrepareSignal
    | SignalDefinitionNotFound
    | SignalIsNotInPreparation
    | SignalIsNotInProcess
    | JournalAlreadyRegistering
    | JournalIsNotRegistering
    | JournalNotSet
    | EmptyJournalEntryName
    | InvalidJournalEntryName
    | InvalidJournalEntryId
    | JournalIsNotInitializing
    | DuplicateJournalGroupId
    | DuplicateJournalGroupName
    | JournalGroupIdNotFound
    | JournalGroupNameNotFound
    | EmptyJournalGroupName
    | InvalidJournalGroupName
    | InvalidJournalGroupId
    | JournalEntryAlreadyRegistered
    | EmptyJournalNotAllowed
    | JournalValueOutsideOfRange
    | JournalEntryTypeMismatch
    | JournalEntryNotFound
    | InvalidJournalAddress
    | InvalidJournalEntrySize
    | JournalDataBufferOverrun
    | JournalRingBufferIsEmpty
    | JournalRingBufferIsFull
    | InvalidChannelType
    | SignalTriggerTimeIsInFuture
    | InternalListError
    | NotImplemented
    | OutOfRange  // std::out_of_range thrown by std::vector::at

  /** A CException's code carries no std::out_of_range. */
  predicate IsFrameworkError(e: ErrorCode)
  {
    !e.OutOfRange?
  }

  /**
   * The numeric value of an error code (eErrorCode in Framework.hpp), as a
   * TCP response's status word carries it. Every code is non-zero, so a
   * response whose status is 0 reports success.
   */
  function ErrorValue(e: ErrorCode): (n: nat)
    requires IsFrameworkError(e)
    ensures 1 <= n <= 118
  {
    match e
      case InvalidParam => 1
      case StateAlreadyExists => 2
      case StateNotFound => 3
      case NextStateHasNotBeenSet => 4
      case ModuleAlreadyExists => 5
      case InvalidChannelNumber => 8
      case ModuleNotFound => 9
      case InvalidAxisLink => 12
      case CouldNotPowerAxis => 13
      case CouldNotReferenceAxis => 14
      case InvalidSpeedValue => 17
      case InvalidAccelerationValue => 18
      case CouldNotMoveAxis => 19
      case ServerIsAlreadyRunning => 21
      case ServerIsNotRunning => 22
      case UnknownTcpServerState => 23
      case UnknownTcpRecvState => 24
      case UnknownTcpSendState => 25
      case InvalidTcpBufferSize => 26
      case TcpSendBufferSizeExceeded => 27
      case TcpSendBufferIsFull => 28
      case PacketHandlerAlreadyRegistered => 29
      case InvalidPayload => 30
      case InvalidTcpResponse => 31
      case NoListToWriteTo => 32
      case TooManyOpenLists => 34
      case NoListEntriesLeft => 35
      case InvalidPayloadOffset => 37
      case InvalidListId => 38
      case ListIsNotInQueue => 39
      case NotWritingToAnyList => 40
      case NotInListCreation => 41
      case ListIsEmpty => 42
      case ListDoesNotExist => 43
      case ListIsNotFinished => 44
      case InvalidName => 45
      case DuplicateSignalDefinition => 46
      case CannotRegisterSignal => 47
      case CannotBuildSignalInstances => 48
      case CannotRegisterParameter => 49
      case DuplicateSignalParameterName => 51
      case CannotRegisterResult => 52
      case DuplicateSignalResultName => 53
      case InvalidSignalQueueSize => 54
      case SignalInstancesAlreadyBuilt => 55
      case SignalDataMissingMemory => 56
      case SignalMemoryAllocationError => 50
      case CouldNotCheckSignal => 81
      case CouldNotWriteDoubleToParameter => 65
      case CouldNotReadDoubleFromParameter => 63
      case SignalDataWriteOutOfRange => 57
      case SignalDataReadOutOfRange => 58
      case ValueIsOutsideOfInteger32Range => 59
      case ValueIsOutsideOfUnsignedInteger32Range => 60
      case SignalParameterNotFound => 61
      case SignalResultNotFound => 62
      case CouldNotReadIntegerFromParameter => 64
      case CouldNotWriteIntegerToParameter => 66
      case InvalidPayloadAddress => 67
      case InvalidPayloadReadOperation => 68
      case InvalidSignalSlotIndex => 73
      case PayloadSignalSlotAlreadyTaken => 76
      case SignalSlotIsEmpty => 75
      case SignalHandlerNotFound => 77
      case SignalHasNoInstances => 78
      case CouldNotPrepareSignal => 79
      case SignalDefinitionNotFound => 80
      case SignalIsNotInPreparation => 84
      case SignalIsNotInProcess => 85
      case JournalAlreadyRegistering => 87
      case JournalIsNotRegistering => 88
      case JournalNotSet => 89
      case EmptyJournalEntryName => 90
      case InvalidJournalEntryName => 91
      case InvalidJournalEntryId => 92
      case JournalIsNotInitializing => 93
      case DuplicateJournalGroupId => 94
      case DuplicateJournalGroupName => 95
      case JournalGroupIdNotFound => 96
      case JournalGroupNameNotFound => 100
      case EmptyJournalGroupName => 101
      case InvalidJournalGroupName => 102
      case InvalidJournalGroupId => 99
      case JournalEntryAlreadyRegistered => 103
      case EmptyJournalNotAllowed => 104
      case JournalValueOutsideOfRange => 105
      case JournalEntryTypeMismatch => 106
      case JournalEntryNotFound => 107
      case InvalidJournalAddress => 108
      case InvalidJournalEntrySize => 109
      case JournalDataBufferOverrun => 110
      case JournalRingBufferIsEmpty => 114
      case JournalRingBufferIsFull => 115
      case InvalidChannelType => 116
      case SignalTriggerTimeIsInFuture => 117
      case InternalListError => 36
      case NotImplemented => 20
  }

  datatype Result<T> = Ok(value: T) | Err(error: ErrorCode)
  {
    predicate IsFailure() { this.Err? }

    function PropagateFailure<U>(): Result<U>
      requires this.Err?
    {
      Err(this.error)
    }

    function Extract(): T
      requires this.Ok?
    {
      this.value
    }
  }
}
