/** The codecs as the network layer uses them: objects that keep a length and a response code
    between calls, take bytes off the front of a buffer and append bytes to its end. */
module Codec {
  import opened Methods
  import opened Protocols
  import opened SnappyFrame
  import opened CodecModel
  import Varint

  class BytesMut {
    var data: Bytes

    constructor ()
      ensures data == []
    {
      data := [];
    }

    method Clear()
      modifies this
      ensures data == []
    {
      data := [];
    }

    method PutU8(x: byte)
      modifies this
      ensures data == old(data) + [x]
    {
      data := data + [x];
    }

    method Extend(bytes: Bytes)
      modifies this
      ensures data == old(data) + bytes
    {
      data := data + bytes;
    }

    method SplitTo(n: nat) returns (front: Bytes)
      requires n <= |data|
      modifies this
      ensures front == old(data)[..n] && data == old(data)[n..]
    {
      front := data[..n];
      data := data[n..];
    }
  }

  /** Takes a length off the buffer if it is there in full. */
  method DecodeLength(src: BytesMut) returns (r: Result<Option<nat>, RPCError>)
    modifies src
    ensures
      match Varint.Decode(old(src.data))
      case Done(n, k) => r == Ok(Some(n)) && src.data == old(src.data)[k..]
      case Need => r == Ok(None) && src.data == old(src.data)
      case Malformed => r == Err(BAD_VARINT) && src.data == old(src.data)
  {
    match Varint.Decode(src.data) {
      case Done(n, k) =>
        var _ := src.SplitTo(k);
        r := Ok(Some(n));
      case Need => r := Ok(None);
      case Malformed => r := Err(BAD_VARINT);
    }
  }

  /** Takes a frame of `length` uncompressed bytes off the buffer if it is there in full. */
  method ReadFrame(config: Config, length: nat, src: BytesMut) returns (r: Result<Option<Bytes>, RPCError>)
    requires length <= config.maxPacketSize
    modifies src
    ensures
      match Read(config.block, old(src.data), false, length)
      case Data(x, n) => r == Ok(Some(x)) && n <= |old(src.data)| && src.data == old(src.data)[n..]
      case Eof => r == Ok(None) && src.data == old(src.data)
      case Corrupt => r == Err(BAD_FRAME) && src.data == old(src.data)
  {
    match Read(config.block, src.data, false, length) {
      case Data(x, n) =>
        ReadSize(config.block, src.data, false, length);
        var _ := src.SplitTo(n);
        r := Ok(Some(x));
      case Eof => r := Ok(None);
      case Corrupt => r := Err(BAD_FRAME);
    }
  }

  /** Appends a payload with its length in front, unless it is too large. */
  method AppendBody(config: Config, bytes: Bytes, dst: BytesMut) returns (r: Result<(), RPCError>)
    requires Lawful(config.block)
    modifies dst
    ensures
      if |bytes| > config.maxPacketSize then r == Err(TOO_LARGE) && dst.data == old(dst.data)
      else r == Ok(()) && dst.data == old(dst.data) + EncodeBody(config, bytes)
  {
    hide Varint.Encode, Write, Lawful;
    if |bytes| > config.maxPacketSize { return Err(TOO_LARGE); }
    var length, frame := Varint.Encode(|bytes|), Write(config.block, bytes);
    dst.Extend(length);
    dst.Extend(frame);
    assert dst.data == old(dst.data) + (length + frame);
    r := Ok(());
  }

  /** What the three decoders share: the length, remembered once it is known, and the frame. */
  class LengthState {
    var len: Option<nat>

    constructor ()
      ensures len == None
    {
      len := None;
    }

    method TakeBody(ghost code: Option<byte>, config: Config, src: BytesMut)
      returns (r: Result<Option<Bytes>, RPCError>)
      modifies this, src
      ensures Decoded(DecoderState(code, len), src.data, r)
              == DecodeBody(config, DecoderState(code, old(len)), old(src.data))
    {
      if len == None {
        var l := DecodeLength(src);
        match l {
          case Err(e) => return Err(e);
          case Ok(None) => return Ok(None);
          case Ok(Some(n)) => len := Some(n);
        }
      }
      var length := len.value;
      if length > config.maxPacketSize { return Err(InvalidData); }
      r := ReadFrame(config, length, src);
      if r.Ok? && r.value.Some? { len := None; }
    }
  }

  /* ---- the side that answers ---- */

  class SnappyInboundCodec {
    const config: Config
    const inner: LengthState

    constructor (config: Config)
      ensures this.config == config && fresh(inner) && State() == FRESH
    {
      this.config := config;
      inner := new LengthState();
    }

    function State(): DecoderState
      reads inner
    {
      DecoderState(None, inner.len)
    }

    method Encode(item: RPCCodedResponse, dst: BytesMut) returns (r: Result<(), RPCError>)
      requires Lawful(config.block)
      modifies dst
      ensures
        if |item.Payload()| > config.maxPacketSize then r == Err(TOO_LARGE) && dst.data == old(dst.data)
        else r == Ok(()) && dst.data == old(dst.data) + EncodeBody(config, item.Payload())
    {
      var bytes;
      match item {
        case Success(Status(data)) => bytes := data;
        case Success(Pong(data)) => bytes := data;
        case Success(MetaData(data)) => bytes := data;
        case InvalidRequest(text) => bytes := text;
        case ServerError(text) => bytes := text;
        case Unknown(text) => bytes := text;
      }
      r := AppendBody(config, bytes, dst);
    }

    method Decode(src: BytesMut) returns (r: Result<Option<RPCRequest>, RPCError>)
      modifies inner, src
      ensures Decoded(State(), src.data, r) == DecodeRequest(config, old(State()), old(src.data))
    {
      hide DecodeBody;
      var body := inner.TakeBody(None, config, src);
      match body {
        case Err(e) => r := Err(e);
        case Ok(None) => r := Ok(None);
        case Ok(Some(data)) =>
          match config.protocol {
            case StatusProtocol => r := if |data| > 0 then Ok(Some(StatusRequest(data))) else Err(InvalidData);
            case GoodbyeProtocol => r := if |data| > 0 then Ok(Some(GoodbyeRequest(data))) else Err(InvalidData);
            case PingProtocol => r := if |data| > 0 then Ok(Some(PingRequest(data))) else Err(InvalidData);
            case MetaDataProtocol => r := if |data| > 0 then Err(InvalidData) else Ok(Some(MetaDataRequest));
          }
      }
    }
  }

  class BaseInboundCodec {
    const inner: SnappyInboundCodec

    constructor (inner: SnappyInboundCodec)
      ensures this.inner == inner
    {
      this.inner := inner;
    }

    /** The buffer is emptied first: bytes of an earlier response that were not sent yet are lost.
        When the payload is too large, the response code alone is left behind. */
    method Encode(item: RPCCodedResponse, dst: BytesMut) returns (r: Result<(), RPCError>)
      requires Lawful(inner.config.block)
      modifies dst
      ensures
        if |item.Payload()| > inner.config.maxPacketSize then r == Err(TOO_LARGE) && dst.data == [item.Code()]
        else r == Ok(()) && dst.data == EncodeResponse(inner.config, item)
    {
      dst.Clear();
      dst.PutU8(item.Code());
      assert dst.data == [item.Code()];
      r := inner.Encode(item, dst);
    }

    method Decode(src: BytesMut) returns (r: Result<Option<RPCRequest>, RPCError>)
      modifies inner.inner, src
      ensures Decoded(inner.State(), src.data, r) == DecodeRequest(inner.config, old(inner.State()), old(src.data))
    {
      r := inner.Decode(src);
    }
  }

  /* ---- the side that asks ---- */

  class SnappyOutboundCodec {
    const config: Config
    const inner: LengthState

    constructor (config: Config)
      ensures this.config == config && fresh(inner) && inner.len == None
    {
      this.config := config;
      inner := new LengthState();
    }

    function State(code: Option<byte>): DecoderState
      reads inner
    {
      DecoderState(code, inner.len)
    }

    method Encode(item: RPCRequest, dst: BytesMut) returns (r: Result<(), RPCError>)
      requires Lawful(config.block)
      modifies dst
      ensures
        if !item.MetaDataRequest? && |item.data| > config.maxPacketSize then
          r == Err(TOO_LARGE) && dst.data == old(dst.data)
        else r == Ok(()) && dst.data == old(dst.data) + EncodeRequest(config, item)
    {
      var bytes;
      match item {
        case StatusRequest(data) => bytes := data;
        case GoodbyeRequest(data) => bytes := data;
        case PingRequest(data) => bytes := data;
        case MetaDataRequest => return Ok(());
      }
      r := AppendBody(config, bytes, dst);
    }

    method Decode(ghost code: Option<byte>, src: BytesMut) returns (r: Result<Option<RPCResponse>, RPCError>)
      modifies inner, src
      ensures
        var d := DecodeBody(config, old(State(code)), old(src.data));
        Decoded(State(code), src.data, r) == Convert(d, MakeResponse(config.protocol, DataOut(d)))
    {
      hide DecodeBody;
      var body := inner.TakeBody(code, config, src);
      match body {
        case Err(e) => r := Err(e);
        case Ok(None) => r := Ok(None);
        case Ok(Some(data)) =>
          match config.protocol {
            case StatusProtocol => r := if |data| > 0 then Ok(Some(Status(data))) else Err(InvalidData);
            case GoodbyeProtocol => r := Err(InvalidData);
            case PingProtocol => r := if |data| > 0 then Ok(Some(Pong(data))) else Err(InvalidData);
            case MetaDataProtocol => r := if |data| > 0 then Ok(Some(MetaData(data))) else Err(InvalidData);
          }
      }
    }

    method DecodeError(ghost code: Option<byte>, src: BytesMut) returns (r: Result<Option<Bytes>, RPCError>)
      modifies inner, src
      ensures
        var d := DecodeBody(config, old(State(code)), old(src.data));
        Decoded(State(code), src.data, r) == Convert(d, Ok(config.lossy(DataOut(d))))
    {
      hide DecodeBody;
      var body := inner.TakeBody(code, config, src);
      match body {
        case Err(e) => r := Err(e);
        case Ok(None) => r := Ok(None);
        case Ok(Some(data)) => r := Ok(Some(config.lossy(data)));
      }
    }
  }

  class BaseOutboundCodec {
    const inner: SnappyOutboundCodec
    var currentResponseCode: Option<byte>

    constructor (inner: SnappyOutboundCodec)
      ensures this.inner == inner && currentResponseCode == None
    {
      this.inner := inner;
      currentResponseCode := None;
    }

    function State(): DecoderState
      reads this, inner.inner
    {
      inner.State(currentResponseCode)
    }

    method Encode(item: RPCRequest, dst: BytesMut) returns (r: Result<(), RPCError>)
      requires Lawful(inner.config.block)
      modifies dst
      ensures
        if !item.MetaDataRequest? && |item.data| > inner.config.maxPacketSize then
          r == Err(TOO_LARGE) && dst.data == old(dst.data)
        else r == Ok(()) && dst.data == old(dst.data) + EncodeRequest(inner.config, item)
    {
      r := inner.Encode(item, dst);
    }

    method Decode(src: BytesMut) returns (r: Result<Option<RPCCodedResponse>, RPCError>)
      modifies this, inner.inner, src
      ensures Decoded(State(), src.data, r) == DecodeResponse(inner.config, old(State()), old(src.data))
    {
      hide DecodeBody;
      if |src.data| <= 1 { return Ok(None); }
      var responseCode;
      if currentResponseCode.Some? {
        responseCode := currentResponseCode.value;
      } else {
        var front := src.SplitTo(1);
        responseCode := front[0];
        currentResponseCode := Some(responseCode);
      }
      if IsResponse(responseCode) {
        var item := inner.Decode(Some(responseCode), src);
        match item {
          case Err(e) => r := Err(e);
          case Ok(None) => r := Ok(None);
          case Ok(Some(resp)) => r := Ok(Some(Success(resp)));
        }
      } else {
        var item := inner.DecodeError(Some(responseCode), src);
        match item {
          case Err(e) => r := Err(e);
          case Ok(None) => r := Ok(None);
          case Ok(Some(text)) => r := Ok(Some(FromError(responseCode, text)));
        }
      }
      if r.Ok? && r.value.Some? { currentResponseCode := None; }
    }
  }
}
