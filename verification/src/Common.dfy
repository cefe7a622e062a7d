/** Machine integers, optional values and the error codes shared by every module. */
module Common {

  type uint8 = x: int | 0 <= x < 0x100
  type uint16 = x: int | 0 <= x < 0x1_0000
  type Bytes = seq<uint8>

  datatype Option<+T> = None | Some(value: T)
  datatype Result<+T> = Ok(value: T) | Err(error: Error)

  /** The BLE_ERROR values that the modelled code returns or inspects. */
  datatype Error =
    | NoError
    | BadArgs
    | IncorrectState
    | NoMemory
    | MessageIncomplete
    | InvalidMessage
    | InvalidFragmentSize
    | IncompatibleVersions
    | OutboundTooBig
    | InvalidAck
    | InvalidSequenceNumber
    | InvalidHeaderFlags
    | ReassemblerState
    | ReassemblerMissingData
    | ReceivedTooBig
    | GattSendFailed
    | GattSubscribeFailed
    | StartTimerFailed
    | ProtocolAbort
    | NoConnectCallback
    | ConnectTimedOut
    | ReceiveTimedOut
    | FragmentAckTimedOut
    | CentralUnsubscribed
    | RemoteDisconnected
    | AppClosedConnection

  /** uint8 arithmetic wraps. */
  function Inc8(x: uint8): uint8 {
    (x + 1) % 0x100
  }

  function Dec8(x: uint8): uint8 {
    (x + 0xff) % 0x100
  }

  function Min(x: int, y: int): int {
    if x < y then x else y
  }
}
