/** The frames of the Broker--CA link as bytes. */
module LinkCodec {
  import opened Bytes
  import opened Types
  import opened LinkProtocol

  datatype LinkError = InvalidFrame | OversizedFrame | QueueFull | Authentication

  const LINK_HEADER_LEN := 28
  const MAX_LINK_FRAME_LEN := LINK_HEADER_LEN + MAX_FRAME_LEN
  /** The letters SPLK. */
  const LINK_MAGIC: seq<byte> := [0x53, 0x50, 0x4C, 0x4B]
  const LINK_VERSION: byte := 1

  function KindByte(kind: FrameKind): byte {
    match kind
    case Request => 1
    case Delivery => 2
    case Ack => 3
    case AuthChallenge => 4
    case AuthResponse => 5
    case AuthOk => 6
  }

  function ParseKind(value: byte): Option<FrameKind> {
    if value == 1 then Some(Request)
    else if value == 2 then Some(Delivery)
    else if value == 3 then Some(Ack)
    else if value == 4 then Some(AuthChallenge)
    else if value == 5 then Some(AuthResponse)
    else if value == 6 then Some(AuthOk)
    else None
  }

  predicate CarriesNothing(kind: FrameKind) { kind == Ack || kind == AuthOk }

  function Encode(f: Frame): Result<seq<byte>, LinkError> {
    if |f.payload| > MAX_FRAME_LEN then Err(OversizedFrame)
    else if CarriesNothing(f.kind) && f.payload != [] then Err(InvalidFrame)
    else Ok(Header(f) + f.payload)
  }

  function Header(f: Frame): (header: seq<byte>)
    ensures |header| == LINK_HEADER_LEN
  {
    LINK_MAGIC + [LINK_VERSION, KindByte(f.kind)] + BigEndian(0, 2) + BigEndian(f.id, 16) + BigEndian(|f.payload|, 4)
  }

  function Decode(input: seq<byte>): Result<Frame, LinkError> {
    if |input| < LINK_HEADER_LEN then Err(InvalidFrame)
    else if |input| > MAX_LINK_FRAME_LEN then Err(OversizedFrame)
    else if input[..4] != LINK_MAGIC || input[4] != LINK_VERSION || input[6..8] != [0, 0] then Err(InvalidFrame)
    else match ParseKind(input[5])
      case None => Err(InvalidFrame)
      case Some(kind) =>
        var payload := input[LINK_HEADER_LEN..];
        if LINK_HEADER_LEN + FromBigEndian(input[24..28]) != |input| then Err(InvalidFrame)
        else if CarriesNothing(kind) && payload != [] then Err(InvalidFrame)
        else Ok(Frame(kind, ReadId(input[8..24]), payload))
  }

  function ReadId(bytes: seq<byte>): MessageId
    requires |bytes| == 16
  {
    Widths();
    FromBigEndian(bytes)
  }

  lemma HeaderFields(f: Frame)
    requires |f.payload| <= MAX_FRAME_LEN
    ensures var h := Header(f);
      && h[..4] == LINK_MAGIC && h[4] == LINK_VERSION && h[5] == KindByte(f.kind) && h[6..8] == [0, 0]
      && h[8..24] == BigEndian(f.id, 16) && h[24..28] == BigEndian(|f.payload|, 4)
  {
  }

  lemma DecodeInvertsEncode(f: Frame, bytes: seq<byte>)
    requires Encode(f) == Ok(bytes)
    ensures Decode(bytes) == Ok(f)
  {
    HeaderFields(f);
    Widths();
    BigEndianRoundTrip(f.id, 16);
    BigEndianRoundTrip(|f.payload|, 4);
    hide BigEndian, FromBigEndian;
    var h := Header(f);
    assert bytes[..4] == h[..4] && bytes[6..8] == h[6..8] && bytes[8..24] == h[8..24] && bytes[24..28] == h[24..28];
    assert bytes[LINK_HEADER_LEN..] == f.payload;
  }

  lemma HeaderIs(h: seq<byte>, f: Frame)
    requires |h| == LINK_HEADER_LEN && h[..4] == LINK_MAGIC && h[4] == LINK_VERSION && h[5] == KindByte(f.kind)
    requires h[6..8] == [0, 0] && h[8..24] == BigEndian(f.id, 16) && h[24..28] == BigEndian(|f.payload|, 4)
    ensures h == Header(f)
  {
    assert BigEndian(0, 2) == [0, 0];
    hide BigEndian;
    assert h == h[..4] + [h[4], h[5]] + h[6..8] + h[8..24] + h[24..28];
  }

  lemma EncodeInvertsDecode(f: Frame, bytes: seq<byte>)
    requires Decode(bytes) == Ok(f)
    ensures Encode(f) == Ok(bytes)
  {
    FromBigEndianRoundTrip(bytes[8..24]);
    FromBigEndianRoundTrip(bytes[24..28]);
    hide BigEndian, FromBigEndian, Header;
    var h := bytes[..LINK_HEADER_LEN];
    assert h[..4] == bytes[..4] && h[6..8] == bytes[6..8] && h[8..24] == bytes[8..24] && h[24..28] == bytes[24..28];
    HeaderIs(h, f);
    assert bytes == h + f.payload;
  }

  /** The codec is canonical: a frame and its bytes determine each other. */
  lemma CodecIsCanonical(f: Frame, bytes: seq<byte>)
    ensures Encode(f) == Ok(bytes) <==> Decode(bytes) == Ok(f)
  {
    if Encode(f) == Ok(bytes) {
      DecodeInvertsEncode(f, bytes);
    }
    if Decode(bytes) == Ok(f) {
      EncodeInvertsDecode(f, bytes);
    }
  }

  /** The kinds of frames in the order of their bytes, from 1 on. */
  const FRAME_KINDS: seq<FrameKind> := [Request, Delivery, Ack, AuthChallenge, AuthResponse, AuthOk]

  /** Which inputs are frames, why another one is refused, and where the fields of a frame are: the
      letters SPLK, version 1, one of six kinds, two zeros, the identifier and the length of the payload,
      which Acks and the end of the authentication do not have. */
  lemma FormatIsExact(input: seq<byte>)
    ensures Decode(input).Ok? <==>
      && 28 <= |input| <= 4352 && input[..4] == [83, 80, 76, 75] && input[4] == 1 && 1 <= input[5] <= 6
      && input[6] == 0 && input[7] == 0 && FromBigEndian(input[24..28]) == |input| - 28
      && (input[5] == 3 || input[5] == 6 ==> |input| == 28)
    ensures Decode(input).Err? ==> Decode(input).error == if |input| > 4352 then OversizedFrame else InvalidFrame
    ensures Decode(input).Ok? ==>
      Decode(input).value == Frame(FRAME_KINDS[input[5] - 1], FromBigEndian(input[8..24]), input[28..])
  {
    hide FromBigEndian;
    if |input| >= 28 {
      assert input[6..8] == [0, 0] <==> input[6] == 0 && input[7] == 0;
    }
  }

  /** Which frames cannot be sent. */
  lemma UnsendableIsExact(f: Frame)
    ensures Encode(f) == Err(OversizedFrame) <==> |f.payload| > 4324
    ensures Encode(f) == Err(InvalidFrame) <==> 0 < |f.payload| <= 4324 && (f.kind == Ack || f.kind == AuthOk)
    ensures Encode(f).Err? ==> Encode(f).error == OversizedFrame || Encode(f).error == InvalidFrame
  {
  }
}
