/** The decoder's outcome types: the packet kinds the wire declares, the
    unpacking error and the `Result`/`Option` carriers.  The source's error
    is one type holding a formatted message; here each message is a
    constructor carrying the values that message interpolates. */
module Unpack {
  import opened Wire

  datatype Option<+T> = None | Some(value: T)

  /** The packet kinds a 2019 header may declare, in wire-id order. */
  datatype PacketType =
    | Motion
    | Session
    | LapData
    | Event
    | Participants
    | CarSetups
    | CarTelemetry
    | CarStatus

  /** The coded fields a car-status record validates. */
  datatype Field =
    | TractionControlField
    | FuelMixField
    | DrsField
    | TyreCompoundField
    | TyreCompoundVisualField
    | ErsDeployModeField

  datatype UnpackError =
    | UnknownFormat(format: u16)               // header format is neither 2019 nor 2020
    | TooSmall(size: nat)                     // declared size below the header size
    | InvalidPacketType(id: u8)               // packet id outside the table
    | NotImplemented(packetType: PacketType)  // recognised id without a decoder
    | InvalidValue(field: Field, code: int)   // coded field outside its table
    | FlagError(flagCode: i8)                 // rejected by the flag validator

  /** Success or the first error met; `:-` propagates the error unchanged,
      as the source's `?` does. */
  datatype Result<+T> = Ok(value: T) | Err(error: UnpackError) {
    predicate IsFailure() {
      Err?
    }

    function PropagateFailure<U>(): Result<U>
      requires Err?
    {
      Err(error)
    }

    function Extract(): T
      requires Ok?
    {
      value
    }
  }
}
