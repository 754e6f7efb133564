/** Requests, the protocols that carry them, and the errors the RPC layer reports. */
module Protocols {
  import opened Methods

  /** The maximum bytes that can be sent across the RPC. */
  const MAX_RPC_SIZE: nat := 1_048_576

  datatype Protocol = StatusProtocol | GoodbyeProtocol | PingProtocol | MetaDataProtocol

  datatype RPCRequest =
    | StatusRequest(data: Bytes)
    | GoodbyeRequest(data: Bytes)
    | PingRequest(data: Bytes)
    | MetaDataRequest
  {
    function ExpectedResponses(): nat {
      match this
      case StatusRequest(_) => 1
      case GoodbyeRequest(_) => 0
      case PingRequest(_) => 1
      case MetaDataRequest => 1
    }

    function Proto(): Protocol {
      match this
      case StatusRequest(_) => StatusProtocol
      case GoodbyeRequest(_) => GoodbyeProtocol
      case PingRequest(_) => PingProtocol
      case MetaDataRequest => MetaDataProtocol
    }
  }

  /** The reason of an error response is kept as bytes; rendering them for display is not modelled. */
  datatype RPCError =
    | IoError(what: string)
    | ErrorResponse(code: ErrorCode, reason: Bytes)
    | StreamTimeout
    | UnsupportedProtocol
    | IncompleteStream
    | InvalidData
    | InternalError(what: string)
    | NegotiationTimeout
    | HandlerRejected
}
