/** Message types of the RPC layer: responses, their wire codes and the
    predicates the stream handler reads off them. */
module Methods {
  newtype byte = x: int | 0 <= x < 256

  type Bytes = seq<byte>

  datatype Option<+T> = None | Some(value: T)

  datatype Result<+T, +E> = Ok(value: T) | Err(error: E)

  /** Identifier of a request, chosen by the application. Not unique: every request
      the behaviour makes on its own account is called `Behaviour`. */
  datatype RequestId = Router | Sync(n: nat) | Behaviour

  datatype RPCResponse = Status(data: Bytes) | Pong(data: Bytes) | MetaData(data: Bytes)

  datatype ErrorCode = InvalidRequestCode | ServerErrorCode | UnknownCode

  datatype RPCCodedResponse =
    | Success(resp: RPCResponse)
    | InvalidRequest(text: Bytes)
    | ServerError(text: Bytes)
    | Unknown(text: Bytes)
  {
    function Code(): byte {
      match this
      case Success(_) => 0
      case InvalidRequest(_) => 1
      case ServerError(_) => 2
      case Unknown(_) => 255
    }

    /** Whether more than one message of this kind may travel on a stream. No success
        variant of this protocol version may. */
    predicate MultipleResponses() {
      match this
      case Success(Status(_)) => false
      case Success(Pong(_)) => false
      case Success(MetaData(_)) => false
      case InvalidRequest(_) => true
      case ServerError(_) => true
      case Unknown(_) => true
    }

    predicate IsError() { !Success? }

    function CodeOfError(): Option<ErrorCode> {
      match this
      case Success(_) => None
      case InvalidRequest(_) => Some(InvalidRequestCode)
      case ServerError(_) => Some(ServerErrorCode)
      case Unknown(_) => Some(UnknownCode)
    }

    /** The bytes that travel behind the response code. */
    function Payload(): Bytes {
      match this
      case Success(resp) => resp.data
      case InvalidRequest(text) => text
      case ServerError(text) => text
      case Unknown(text) => text
    }
  }

  /** Whether a response code announces a success payload. */
  predicate IsResponse(code: byte) { code == 0 }

  /** Builds an error response from a code: every code but 1 and 2 reads as `Unknown`. */
  function FromError(code: byte, text: Bytes): RPCCodedResponse {
    if code == 1 then InvalidRequest(text)
    else if code == 2 then ServerError(text)
    else Unknown(text)
  }

  /** The code tells success from error, and an error response is rebuilt from its code and text. */
  lemma CodeRoundTrip(r: RPCCodedResponse)
    ensures IsResponse(r.Code()) <==> r.Success?
    ensures r.IsError() ==> FromError(r.Code(), r.Payload()) == r && r.CodeOfError().Some?
  {
  }

  /** "Request timed out", the text of the error that ends an expired inbound stream. */
  const TIMED_OUT: Bytes :=
    [82, 101, 113, 117, 101, 115, 116, 32, 116, 105, 109, 101, 100, 32, 111, 117, 116]
}
