/** The RPC codecs as functions: a parser that looks at all bytes at once, and the incremental
    decoder that keeps a response code and a length between calls. */
module CodecModel {
  import opened Methods
  import opened Protocols
  import opened SnappyFrame
  import Varint

  /** What a codec is configured with. `lossy` is the lossy conversion of error texts to UTF-8. */
  datatype Config = Config(protocol: Protocol, maxPacketSize: nat, block: Block, lossy: Bytes -> Bytes)

  ghost predicate Usable(c: Config) {
    Lawful(c.block) && |Varint.Encode(c.maxPacketSize)| <= Varint.MAX_BYTES
  }

  datatype Parse<+T> = Item(value: T, used: nat) | More | Fail(error: RPCError)

  /* ---- encoders ---- */

  const TOO_LARGE: RPCError := InternalError("attempting to encode data > max_packet_size")

  function EncodeBody(c: Config, payload: Bytes): Bytes
    requires Lawful(c.block)
  {
    Varint.Encode(|payload|) + Write(c.block, payload)
  }

  function EncodeResponse(c: Config, r: RPCCodedResponse): Bytes
    requires Lawful(c.block)
  {
    [r.Code()] + EncodeBody(c, r.Payload())
  }

  /** A metadata request travels as an empty stream. */
  function EncodeRequest(c: Config, r: RPCRequest): Bytes
    requires Lawful(c.block)
  {
    if r.MetaDataRequest? then [] else EncodeBody(c, r.data)
  }

  /* ---- what decoded bytes mean ---- */

  function MakeRequest(p: Protocol, data: Bytes): Result<RPCRequest, RPCError> {
    if p.MetaDataProtocol? then (if data == [] then Ok(MetaDataRequest) else Err(InvalidData))
    else if data == [] then Err(InvalidData)
    else
      Ok(match p
         case StatusProtocol => StatusRequest(data)
         case GoodbyeProtocol => GoodbyeRequest(data)
         case _ => PingRequest(data))
  }

  function MakeResponse(p: Protocol, data: Bytes): Result<RPCResponse, RPCError> {
    if p.GoodbyeProtocol? || data == [] then Err(InvalidData)
    else
      Ok(match p
         case StatusProtocol => Status(data)
         case PingProtocol => Pong(data)
         case _ => MetaData(data))
  }

  function MakeCoded(c: Config, code: byte, data: Bytes): Result<RPCCodedResponse, RPCError> {
    if IsResponse(code) then
      match MakeResponse(c.protocol, data)
      case Ok(r) => Ok(Success(r))
      case Err(e) => Err(e)
    else Ok(FromError(code, c.lossy(data)))
  }

  const BAD_VARINT: RPCError := IoError("varint")
  const BAD_FRAME: RPCError := IoError("snappy")

  /* ---- one-shot parsers ---- */

  function ParseFrame(c: Config, length: nat, s: Bytes): Parse<Bytes> {
    if length > c.maxPacketSize then Fail(InvalidData)
    else
      match Read(c.block, s, false, length)
      case Data(data, used) => Item(data, used)
      case Eof => More
      case Corrupt => Fail(BAD_FRAME)
  }

  function ParseBody(c: Config, s: Bytes): Parse<Bytes> {
    match Varint.Decode(s)
    case Need => More
    case Malformed => Fail(BAD_VARINT)
    case Done(length, k) => Used(k, ParseFrame(c, length, s[k..]))
  }

  function Used<T>(n: nat, p: Parse<T>): Parse<T> {
    if p.Item? then p.(used := n + p.used) else p
  }

  /** What a parsed body means, where `made` is the meaning of its data. */
  function Meaning<T>(p: Parse<Bytes>, made: Result<T, RPCError>): Parse<T> {
    match p
    case Item(_, used) => (match made case Ok(y) => Item(y, used) case Err(e) => Fail(e))
    case More => More
    case Fail(e) => Fail(e)
  }

  function DataOf(p: Parse<Bytes>): Bytes { if p.Item? then p.value else [] }

  function ParseRequest(c: Config, s: Bytes): Parse<RPCRequest> {
    var p := ParseBody(c, s);
    Meaning(p, MakeRequest(c.protocol, DataOf(p)))
  }

  function CodedMeaning(c: Config, code: byte, p: Parse<Bytes>): Parse<RPCCodedResponse> {
    Used(1, Meaning(p, MakeCoded(c, code, DataOf(p))))
  }

  function ParseResponse(c: Config, s: Bytes): Parse<RPCCodedResponse> {
    if s == [] then More else CodedMeaning(c, s[0], ParseBody(c, s[1..]))
  }

  /* ---- the incremental decoders ---- */

  /** What the codecs remember between calls: the response code and the length of the chunk whose
      bytes are still arriving. */
  datatype DecoderState = DecoderState(code: Option<byte>, len: Option<nat>)

  const FRESH: DecoderState := DecoderState(None, None)

  datatype Decoded<+T> = Decoded(st: DecoderState, rest: Bytes, result: Result<Option<T>, RPCError>)

  /** The three decoders of the snappy codec: the length is read once and remembered, then the
      frame is tried from its start until it is complete. */
  function DecodeBody(c: Config, st: DecoderState, src: Bytes): (d: Decoded<Bytes>)
    ensures |d.rest| <= |src|
  {
    match st.len
    case Some(length) => DecodeFrame(c, st, length, src)
    case None =>
      match Varint.Decode(src)
      case Need => Decoded(st, src, Ok(None))
      case Malformed => Decoded(st, src, Err(BAD_VARINT))
      case Done(length, k) => DecodeFrame(c, st.(len := Some(length)), length, src[k..])
  }

  function DecodeFrame(c: Config, st: DecoderState, length: nat, src: Bytes): (d: Decoded<Bytes>)
    ensures |d.rest| <= |src|
  {
    if length > c.maxPacketSize then Decoded(st, src, Err(InvalidData))
    else
      match Read(c.block, src, false, length)
      case Data(data, used) =>
        ReadSize(c.block, src, false, length);
        Decoded(st.(len := None), src[used..], Ok(Some(data)))
      case Eof => Decoded(st, src, Ok(None))
      case Corrupt => Decoded(st, src, Err(BAD_FRAME))
  }

  function Convert<T>(d: Decoded<Bytes>, made: Result<T, RPCError>): Decoded<T> {
    Decoded(d.st, d.rest,
            match d.result
            case Err(e) => Err(e)
            case Ok(None) => Ok(None)
            case Ok(Some(_)) => (match made case Ok(y) => Ok(Some(y)) case Err(e) => Err(e)))
  }

  function DataOut(d: Decoded<Bytes>): Bytes {
    if d.result.Ok? && d.result.value.Some? then d.result.value.value else []
  }

  function DecodeRequest(c: Config, st: DecoderState, src: Bytes): Decoded<RPCRequest> {
    var d := DecodeBody(c, st, src);
    Convert(d, MakeRequest(c.protocol, DataOut(d)))
  }

  /** The response code is forgotten when its chunk is complete. */
  function FinishResponse(c: Config, code: byte, d: Decoded<Bytes>): Decoded<RPCCodedResponse> {
    var d := Convert(d, MakeCoded(c, code, DataOut(d)));
    if d.result.Ok? && d.result.value.Some? then d.(st := d.st.(code := None)) else d
  }

  /** A lone byte is left alone: the response code is taken only together with what follows. */
  function DecodeResponse(c: Config, st: DecoderState, src: Bytes): Decoded<RPCCodedResponse> {
    if |src| <= 1 then Decoded(st, src, Ok(None))
    else if st.code.Some? then FinishResponse(c, st.code.value, DecodeBody(c, st, src))
    else FinishResponse(c, src[0], DecodeBody(c, st.(code := Some(src[0])), src[1..]))
  }

  /* ---- the bytes an incremental decoder has in its hands ---- */

  /** The bytes of the current chunk that were taken from the buffer already. */
  function Taken(st: DecoderState): Bytes {
    (if st.code.Some? then [st.code.value] else []) + (if st.len.Some? then Varint.Encode(st.len.value) else [])
  }

  function Pending(st: DecoderState, src: Bytes): Bytes { Taken(st) + src }
}
