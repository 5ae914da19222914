/** Envelopes: a fixed header written in place, the ciphertext, its tag and a signature. */
module Envelope {
  import opened Bytes
  import opened Types

  const MAGIC: seq<byte> := [83, 80, 85, 66, 83, 85, 66, 0]
  const VERSION: byte := 1

  datatype Header = Header(messageType: MessageType, sender: AgentId, recipient: AgentId, handler: HandlerId,
                           session: SessionId, ephemeral: seq<byte>, salt: seq<byte>)

  datatype Envelope = Envelope(header: Header, ciphertext: seq<byte>, tag: seq<byte>, signature: seq<byte>)

  predicate ValidHeader(h: Header) { |h.ephemeral| == 32 && |h.salt| == 32 }

  predicate ValidEnvelope(e: Envelope) {
    && ValidHeader(e.header) && |e.ciphertext| <= MAX_PLAINTEXT_LEN
    && |e.tag| == TAG_LEN && |e.signature| == SIGNATURE_LEN
  }

  function TypeByte(t: MessageType): byte {
    match t
    case SetEnvironment => 1
    case SubscribePermanent => 2
    case Publish => 3
    case PublicationResponse => 4
    case Subscribe => 5
  }

  function TypeOf(b: byte): Option<MessageType> {
    match b
    case 1 => Some(SetEnvironment)
    case 2 => Some(SubscribePermanent)
    case 3 => Some(Publish)
    case 4 => Some(PublicationResponse)
    case 5 => Some(Subscribe)
    case _ => None
  }

  /** The length of a complete envelope. */
  function Total(ciphertextLength: nat): nat { HEADER_LEN + ciphertextLength + TAG_LEN + SIGNATURE_LEN }

  /** Bytes 0 to 15. */
  function FrontBefore(t: MessageType, total: nat, rest: seq<byte>): seq<byte> {
    MAGIC + ([VERSION] + ([TypeByte(t)] + ([0, 0] + (BigEndian(total, 4) + rest))))
  }

  /** Bytes 16 to 79. */
  function IdsBefore(h: Header, rest: seq<byte>): seq<byte> {
    BigEndian(h.sender, 16)
      + (BigEndian(h.recipient, 16) + (BigEndian(h.handler, 16) + (BigEndian(h.session, 16) + rest)))
  }

  /** Bytes 80 to 147. */
  function KeysBefore(h: Header, ciphertextLength: nat, rest: seq<byte>): seq<byte> {
    h.ephemeral + (h.salt + (BigEndian(ciphertextLength, 4) + rest))
  }

  /** The canonical header in front of what follows it. */
  function HeaderBefore(h: Header, ciphertextLength: nat, rest: seq<byte>): seq<byte> {
    FrontBefore(h.messageType, Total(ciphertextLength), IdsBefore(h, KeysBefore(h, ciphertextLength, rest)))
  }

  function EnvelopeBytes(e: Envelope): seq<byte> {
    HeaderBefore(e.header, |e.ciphertext|, e.ciphertext + (e.tag + e.signature))
  }

  /** The checks on an input, in their order; `Ok` carries the length of the ciphertext. */
  function Check(input: seq<byte>): Result<nat, Error> {
    if |input| < Total(0) then Err(Malformed)
    else if |input| > MAX_FRAME_LEN then Err(Oversized)
    else if input[0..8] != MAGIC then Err(Malformed)
    else if input[8] != VERSION then Err(UnsupportedVersion)
    else if TypeOf(input[9]) == None then Err(Malformed)
    else if input[10..12] != [0, 0] then Err(Malformed)
    else if FromBigEndian(input[12..16]) != |input| then Err(Malformed)
    else
      var length := FromBigEndian(input[144..148]);
      if length > MAX_PLAINTEXT_LEN then Err(Oversized)
      else if Total(length) != |input| then Err(Malformed)
      else Ok(length)
  }

  function ReadHeader(input: seq<byte>): Header
    requires Check(input).Ok?
  {
    Widths();
    Header(TypeOf(input[9]).value, FromBigEndian(input[16..32]), FromBigEndian(input[32..48]),
           FromBigEndian(input[48..64]), FromBigEndian(input[64..80]), input[80..112], input[112..144])
  }

  function ParseEnvelope(input: seq<byte>): Result<Envelope, Error> {
    var length :- Check(input);
    var end := HEADER_LEN + length;
    Ok(Envelope(ReadHeader(input), input[HEADER_LEN..end], input[end..end + TAG_LEN], input[end + TAG_LEN..]))
  }

  // ----- the header written in place -----

  /** Extends what is written by a piece; `goal` is what the buffer will hold in the end. */
  method Copy(output: array<byte>, at: nat, bytes: seq<byte>, ghost rest: seq<byte>, ghost goal: seq<byte>)
    requires at + |bytes| <= output.Length && output[..at] + (bytes + rest) == goal
    modifies output
    ensures output[..at + |bytes|] + rest == goal
    ensures forall k :: at + |bytes| <= k < output.Length ==> output[k] == old(output[k])
  {
    forall i | 0 <= i < |bytes| {
      output[at + i] := bytes[i];
    }
    assert output[..at + |bytes|] == old(output[..at]) + bytes;
  }

  method WriteFront(output: array<byte>, t: MessageType, total: nat, ghost rest: seq<byte>)
    requires output.Length >= HEADER_LEN
    modifies output
    ensures output[..16] + rest == FrontBefore(t, total, rest)
    ensures forall k :: 16 <= k < output.Length ==> output[k] == old(output[k])
  {
    hide BigEndian, TypeByte;
    ghost var goal := FrontBefore(t, total, rest);
    var length := BigEndian(total, 4);
    Copy(output, 0, MAGIC, [VERSION] + ([TypeByte(t)] + ([0, 0] + (length + rest))), goal);
    Copy(output, 8, [VERSION], [TypeByte(t)] + ([0, 0] + (length + rest)), goal);
    Copy(output, 9, [TypeByte(t)], [0, 0] + (length + rest), goal);
    Copy(output, 10, [0, 0], length + rest, goal);
    Copy(output, 12, length, rest, goal);
  }

  method WriteIds(output: array<byte>, h: Header, ghost rest: seq<byte>, ghost goal: seq<byte>)
    requires output.Length >= HEADER_LEN && output[..16] + IdsBefore(h, rest) == goal
    modifies output
    ensures output[..80] + rest == goal
    ensures forall k :: 80 <= k < output.Length ==> output[k] == old(output[k])
  {
    hide BigEndian;
    ghost var session := BigEndian(h.session, 16) + rest;
    ghost var handler := BigEndian(h.handler, 16) + session;
    Copy(output, 16, BigEndian(h.sender, 16), BigEndian(h.recipient, 16) + handler, goal);
    Copy(output, 32, BigEndian(h.recipient, 16), handler, goal);
    Copy(output, 48, BigEndian(h.handler, 16), session, goal);
    Copy(output, 64, BigEndian(h.session, 16), rest, goal);
  }

  method WriteKeys(output: array<byte>, h: Header, ciphertextLength: nat, ghost rest: seq<byte>, ghost goal: seq<byte>)
    requires output.Length >= HEADER_LEN && ValidHeader(h)
    requires output[..80] + KeysBefore(h, ciphertextLength, rest) == goal
    modifies output
    ensures output[..HEADER_LEN] + rest == goal
    ensures forall k :: HEADER_LEN <= k < output.Length ==> output[k] == old(output[k])
  {
    hide BigEndian;
    ghost var length := BigEndian(ciphertextLength, 4) + rest;
    Copy(output, 80, h.ephemeral, h.salt + length, goal);
    Copy(output, 112, h.salt, length, goal);
    Copy(output, 144, BigEndian(ciphertextLength, 4), rest, goal);
  }

  /** Returns the length of the complete envelope. */
  method EncodeHeader(output: array<byte>, h: Header, ciphertextLength: nat) returns (r: Result<nat, Error>)
    requires ValidHeader(h)
    modifies output
    ensures r == if ciphertextLength > MAX_PLAINTEXT_LEN || output.Length < HEADER_LEN then Err(Oversized)
                 else Ok(Total(ciphertextLength))
    ensures r.Ok? ==> output[..] == HeaderBefore(h, ciphertextLength, old(output[HEADER_LEN..]))
    ensures r.Err? ==> output[..] == old(output[..])
  {
    hide FrontBefore, IdsBefore, KeysBefore;
    if ciphertextLength > MAX_PLAINTEXT_LEN {
      return Err(Oversized);
    }
    var total := HEADER_LEN + ciphertextLength + TAG_LEN + SIGNATURE_LEN;
    if output.Length < HEADER_LEN || total > MAX_FRAME_LEN {
      return Err(Oversized);
    }
    ghost var rest := output[HEADER_LEN..];
    ghost var goal := HeaderBefore(h, ciphertextLength, rest);
    ghost var keys := KeysBefore(h, ciphertextLength, rest);
    WriteFront(output, h.messageType, total, IdsBefore(h, keys));
    WriteIds(output, h, keys, goal);
    WriteKeys(output, h, ciphertextLength, rest, goal);
    assert output[..] == output[..HEADER_LEN] + output[HEADER_LEN..];
    return Ok(total);
  }

  // ----- reading back -----

  /** A piece at a known offset, and what follows it. */
  lemma PieceAt(s: seq<byte>, at: nat, piece: seq<byte>, rest: seq<byte>)
    requires at <= |s| && s[at..] == piece + rest
    ensures at + |piece| <= |s| && s[at..at + |piece|] == piece && s[at + |piece|..] == rest
  {
  }

  /** The input from an offset on is a slice and the input behind it. */
  lemma Glue(s: seq<byte>, from: nat, to: nat)
    requires from <= to <= |s|
    ensures s[from..] == s[from..to] + s[to..]
  {
  }

  /** What lies where. */
  predicate Laid(s: seq<byte>, h: Header, length: nat, rest: seq<byte>) {
    && |s| >= HEADER_LEN && s[HEADER_LEN..] == rest
    && s[0..8] == MAGIC && s[8] == VERSION && s[9] == TypeByte(h.messageType) && s[10..12] == [0, 0]
    && s[12..16] == BigEndian(Total(length), 4)
    && s[16..32] == BigEndian(h.sender, 16) && s[32..48] == BigEndian(h.recipient, 16)
    && s[48..64] == BigEndian(h.handler, 16) && s[64..80] == BigEndian(h.session, 16)
    && s[80..112] == h.ephemeral && s[112..144] == h.salt && s[144..148] == BigEndian(length, 4)
  }

  lemma FrontAt(s: seq<byte>, t: MessageType, total: nat, rest: seq<byte>)
    requires s == FrontBefore(t, total, rest)
    ensures |s| >= 16 && s[0..8] == MAGIC && s[8] == VERSION && s[9] == TypeByte(t) && s[10..12] == [0, 0]
    ensures s[12..16] == BigEndian(total, 4) && s[16..] == rest
  {
  }

  lemma IdsAt(s: seq<byte>, h: Header, rest: seq<byte>)
    requires |s| >= 16 && s[16..] == IdsBefore(h, rest)
    ensures |s| >= 80 && s[80..] == rest
    ensures s[16..32] == BigEndian(h.sender, 16) && s[32..48] == BigEndian(h.recipient, 16)
    ensures s[48..64] == BigEndian(h.handler, 16) && s[64..80] == BigEndian(h.session, 16)
  {
  }

  lemma HeaderIsLaid(h: Header, length: nat, rest: seq<byte>)
    requires ValidHeader(h)
    ensures Laid(HeaderBefore(h, length, rest), h, length, rest)
  {
    hide FrontBefore, IdsBefore, BigEndian;
    var s, keys := HeaderBefore(h, length, rest), KeysBefore(h, length, rest);
    FrontAt(s, h.messageType, Total(length), IdsBefore(h, keys));
    IdsAt(s, h, keys);
    PieceAt(s, 80, h.ephemeral, h.salt + (BigEndian(length, 4) + rest));
    PieceAt(s, 112, h.salt, BigEndian(length, 4) + rest);
    PieceAt(s, 144, BigEndian(length, 4), rest);
  }

  lemma HeaderReadsBack(h: Header, length: nat, rest: seq<byte>)
    requires ValidHeader(h) && length <= MAX_PLAINTEXT_LEN && |rest| == length + TAG_LEN + SIGNATURE_LEN
    ensures var s := HeaderBefore(h, length, rest);
      && |s| == Total(length) && Check(s) == Ok(length) && ReadHeader(s) == h && s[HEADER_LEN..] == rest
  {
    hide HeaderBefore, BigEndian, FromBigEndian;
    Widths();
    HeaderIsLaid(h, length, rest);
    BigEndianRoundTrip(Total(length), 4);
    BigEndianRoundTrip(length, 4);
    BigEndianRoundTrip(h.sender, 16);
    BigEndianRoundTrip(h.recipient, 16);
    BigEndianRoundTrip(h.handler, 16);
    BigEndianRoundTrip(h.session, 16);
  }

  lemma HeaderIsCanonical(input: seq<byte>)
    requires Check(input).Ok?
    ensures input == HeaderBefore(ReadHeader(input), Check(input).value, input[HEADER_LEN..])
  {
    hide BigEndian, FromBigEndian;
    var s := input;
    assert s[0..] == s;
    Glue(s, 0, 8);
    Glue(s, 8, 9);
    Glue(s, 9, 10);
    Glue(s, 10, 12);
    Glue(s, 12, 16);
    Glue(s, 16, 32);
    Glue(s, 32, 48);
    Glue(s, 48, 64);
    Glue(s, 64, 80);
    Glue(s, 80, 112);
    Glue(s, 112, 144);
    Glue(s, 144, 148);
    assert s[8..9] == [VERSION] && s[9..10] == [TypeByte(ReadHeader(s).messageType)];
    FromBigEndianRoundTrip(s[12..16]);
    FromBigEndianRoundTrip(s[16..32]);
    FromBigEndianRoundTrip(s[32..48]);
    FromBigEndianRoundTrip(s[48..64]);
    FromBigEndianRoundTrip(s[64..80]);
    FromBigEndianRoundTrip(s[144..148]);
  }

  /** Parsing succeeds on exactly the canonical bytes of the valid envelopes, and gives them back. */
  lemma EnvelopesAreCanonical(input: seq<byte>, e: Envelope)
    ensures ParseEnvelope(input) == Ok(e) <==> ValidEnvelope(e) && EnvelopeBytes(e) == input
  {
    hide HeaderBefore, Check, ReadHeader;
    if ValidEnvelope(e) {
      var rest := e.ciphertext + (e.tag + e.signature);
      HeaderReadsBack(e.header, |e.ciphertext|, rest);
      var s, end := EnvelopeBytes(e), HEADER_LEN + |e.ciphertext|;
      PieceAt(s, HEADER_LEN, e.ciphertext, e.tag + e.signature);
      PieceAt(s, end, e.tag, e.signature);
    }
    if ParseEnvelope(input) == Ok(e) {
      CheckedLength(input);
      HeaderIsCanonical(input);
      var end := HEADER_LEN + |e.ciphertext|;
      Glue(input, HEADER_LEN, end);
      Glue(input, end, end + TAG_LEN);
    }
  }

  lemma CheckedLength(input: seq<byte>)
    requires Check(input).Ok?
    ensures |input| == Total(Check(input).value) <= MAX_FRAME_LEN && Check(input).value <= MAX_PLAINTEXT_LEN
    ensures ValidHeader(ReadHeader(input))
  {
  }

  /** The message types in the order of their bytes, from 1 on. */
  const MESSAGE_TYPES: seq<MessageType> :=
    [MessageType.SetEnvironment, MessageType.SubscribePermanent, MessageType.Publish, MessageType.PublicationResponse,
     MessageType.Subscribe]

  /** The letters SPUBSUB and a zero, version 1, one of five types, two zeros and the length. */
  predicate HasFront(input: seq<byte>)
    requires |input| >= 228
  {
    && input[..8] == [83, 80, 85, 66, 83, 85, 66, 0] && input[8] == 1 && 1 <= input[9] <= 5
    && input[10] == 0 && input[11] == 0 && FromBigEndian(input[12..16]) == |input|
  }

  /** Which inputs are envelopes, and why another one is refused. */
  lemma FormatIsExact(input: seq<byte>)
    ensures ParseEnvelope(input).Ok? <==>
      228 <= |input| <= 4324 && HasFront(input) && FromBigEndian(input[144..148]) == |input| - 228
    ensures ParseEnvelope(input) == Err(Oversized) <==>
      || |input| > 4324
      || (|input| >= 228 && HasFront(input) && FromBigEndian(input[144..148]) > 4096)
    ensures ParseEnvelope(input) == Err(UnsupportedVersion) <==>
      228 <= |input| <= 4324 && input[..8] == [83, 80, 85, 66, 83, 85, 66, 0] && input[8] != 1
    ensures ParseEnvelope(input).Err? ==>
      ParseEnvelope(input).error in {Error.Malformed, Error.Oversized, Error.UnsupportedVersion}
  {
    hide FromBigEndian;
    if |input| >= 228 {
      assert input[0..8] == input[..8] && (input[10..12] == [0, 0] <==> input[10] == 0 && input[11] == 0);
    }
  }

  /** Where the fields of an envelope are. */
  lemma FieldsAre(input: seq<byte>)
    requires ParseEnvelope(input).Ok?
    ensures var e, end := ParseEnvelope(input).value, |input| - 80;
      && 228 <= |input| && 1 <= input[9] <= 5 && e.header.messageType == MESSAGE_TYPES[input[9] - 1]
      && e.header.sender == FromBigEndian(input[16..32]) && e.header.recipient == FromBigEndian(input[32..48])
      && e.header.handler == FromBigEndian(input[48..64]) && e.header.session == FromBigEndian(input[64..80])
      && e.header.ephemeral == input[80..112] && e.header.salt == input[112..144]
      && e.ciphertext == input[148..end] && e.tag == input[end..end + 16] && e.signature == input[end + 16..]
  {
    hide FromBigEndian;
    FormatIsExact(input);
  }
}
