/**
 * The framing of message-router responses: one type-tag byte, then the gob encoding of the
 * response. The gob bytes are carried as an opaque payload, and the gob encoder's and decoder's
 * errors are inputs.
 */
module ResponseCodec {
  import opened Wrappers
  import opened GoInts
  import opened GoErrors
  import opened Decimal

  /** The response type tags. */
  const WrongResponseType: byte := 0
  const CommonResponseType: byte := 1

  /** A response object of a known type, as `getEmptyResponse` allocates it. */
  datatype ResponseKind = CommonResponse

  /** A decoded response: its kind and the encoded bytes the decoder fills it from. */
  datatype Decoded = Decoded(kind: ResponseKind, encoded: seq<byte>)

  const NoWrongResponse: Error := Error("no empty response for 'wrong' response")
  const TooShortInput: Error := Error("too short input to deserialize a message response")

  function UnimplementedType(t: byte): Error
  {
    Error("unimplemented response type: '" + NatToString(t) + "'")
  }

  /** `getEmptyResponse`: the tag selects the response type; tag 0 and unknown tags are refused. */
  function GetEmptyResponse(t: byte): (r: Result<ResponseKind, Error>)
    ensures r.Success? <==> t == CommonResponseType
    ensures t == WrongResponseType ==> r == Failure(NoWrongResponse)
    ensures t > CommonResponseType ==> r == Failure(UnimplementedType(t))
  {
    if t == WrongResponseType then Failure(NoWrongResponse)
    else if t == CommonResponseType then Success(CommonResponse)
    else Failure(UnimplementedType(t))
  }

  /** The bytes of a serialised response: the tag, then the payload. */
  function Framed(t: byte, payload: seq<byte>): (bytes: seq<byte>)
    ensures |bytes| == 1 + |payload| && bytes[0] == t && bytes[1..] == payload
  {
    [t] + payload
  }

  /** What `Deserialize` returns for a whole input. */
  function Unframe(bytes: seq<byte>): Result<Decoded, Error>
  {
    if bytes == [] then Failure(TooShortInput)
    else
      match GetEmptyResponse(bytes[0])
      case Failure(e) => Failure(e)
      case Success(kind) => Success(Decoded(kind, bytes[1..]))
  }

  /** The tag survives the round trip: a framed common response decodes from its own payload. */
  lemma UnframeFramed(t: byte, payload: seq<byte>)
    ensures Unframe(Framed(t, payload)) ==
      if t == CommonResponseType then Success(Decoded(CommonResponse, payload))
      else Failure(if t == WrongResponseType then NoWrongResponse else UnimplementedType(t))
  {
  }

  /** Decoding succeeds exactly on inputs that are a common-response frame, and then it re-frames to them. */
  lemma FramedUnframe(bytes: seq<byte>)
    ensures Unframe(bytes).Success? <==> |bytes| >= 1 && bytes[0] == CommonResponseType
    ensures Unframe(bytes).Success? ==> Framed(CommonResponseType, Unframe(bytes).value.encoded) == bytes
  {
  }

  /** A `bytes.Buffer`: writes append, reads take from the front. */
  class Buffer {
    var data: seq<byte>

    constructor ()
      ensures data == []
    {
      data := [];
    }

    method Write(bytes: seq<byte>)
      modifies this
      ensures data == old(data) + bytes
    {
      data := data + bytes;
    }

    /** `Read` into a one-byte slice: the first byte, or end of input when nothing is left. */
    method ReadByte() returns (b: Option<byte>)
      modifies this
      ensures old(data) == [] ==> b == None && data == []
      ensures old(data) != [] ==> b == Some(old(data)[0]) && data == old(data)[1..]
    {
      if data == [] {
        return None;
      }
      b := Some(data[0]);
      data := data[1..];
    }
  }

  /**
   * `serialize`: the tag byte written first, then what the gob encoder writes for the response,
   * given as `encoded` with the encoder's error `encodeErr`; the buffer is returned with that error.
   */
  method Serialize(encoded: seq<byte>, encodeErr: Option<Error>, t: byte) returns (buff: Buffer, err: Option<Error>)
    ensures fresh(buff) && buff.data == Framed(t, encoded)
    ensures err == encodeErr
  {
    buff := new Buffer();
    buff.Write([t]);
    buff.Write(encoded);
    err := encodeErr;
  }

  /**
   * `Deserialize`: reads the tag, allocates the response it names, and hands the rest to the
   * gob decoder, which takes the remaining bytes and reports `decodeErr` of them; the response
   * is returned together with that error. A refused tag leaves the rest unread.
   */
  method Deserialize(buff: Buffer, decodeErr: seq<byte> -> Option<Error>) returns (m: Option<Decoded>, err: Option<Error>)
    modifies buff
    ensures Unframe(old(buff.data)).Success? ==>
              m == Some(Unframe(old(buff.data)).value) && err == decodeErr(old(buff.data)[1..])
    ensures Unframe(old(buff.data)).Failure? ==> m == None && err == Some(Unframe(old(buff.data)).error)
    ensures old(buff.data) != [] && Unframe(old(buff.data)).Failure? ==> buff.data == old(buff.data)[1..]
    ensures Unframe(old(buff.data)).Success? || old(buff.data) == [] ==> buff.data == []
  {
    var b := buff.ReadByte();
    if b.None? {
      return None, Some(TooShortInput);
    }
    var kind := GetEmptyResponse(b.value);
    if kind.Failure? {
      return None, Some(kind.error);
    }
    m := Some(Decoded(kind.value, buff.data));
    err := decodeErr(buff.data);
    buff.data := [];
  }
}
