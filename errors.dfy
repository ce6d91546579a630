/** The exceptions the backend raises or lets through, as one closed union. */
module Errors {

  datatype Error =
    // int.Parse of the API id: FormatException and OverflowException
    | NumberFormat
    | NumberOverflow
    // UserInformationException raised by the constructor
    | NoApiId
    | NoApiHash
    | NoPhoneNumber
    | NoChannelName
    // UserInformationException raised by Authenticate
    | NoAuthCode
    | WrongAuthCode
    | NoPassword
    // FloodException: the server asks the client to wait this many seconds
    | Flood(seconds: nat)
    // WebException raised by EnsureConnected
    | Connection
    // OperationCanceledException raised by a cancellation checkpoint
    | Cancelled
    // InvalidOperationException, carrying its message text
    | InvalidOperation(message: string)
    | NullReference
    | InvalidCast
    // NotSupportedException raised by GetChats for an unknown chat type
    | UnsupportedChat(typeName: string)
    // any other failure of a remote call
    | Rpc(message: string)
    // the model's bound on repetitions was reached while the source would still be looping
    | Unfinished

  /** The errors the execution guard logs as a warning and rethrows unchanged. */
  predicate IsUserInformation(e: Error)
  {
    e.NoApiId? || e.NoApiHash? || e.NoPhoneNumber? || e.NoChannelName?
    || e.NoAuthCode? || e.WrongAuthCode? || e.NoPassword?
  }

  /** Message of the InvalidOperationException thrown by Enumerable.First when nothing matches. */
  const NoMatchingElement := "Sequence contains no matching element"

  /** Message of the InvalidOperationException thrown by Nullable.Value when there is no value. */
  const NullableWithoutValue := "Nullable object must have a value."

  /** The text that marks the one download error that is retried. */
  const PacketLengthText := "Couldn't read the packet length"
}
