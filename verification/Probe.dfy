/** The server-info probe: the query packet, and the reader of the response. */
module Probe {
  import opened Bytes
  import opened Wrappers

  type Text = seq<Byte>

  const QUERY_MAGIC: nat := 0xBA51_5101
  const RESPONSE_MAGIC: nat := 0xBA51_5102
  const PROTOCOL_VERSION: nat := 1
  const MIN_REQUEST_BYTES: nat := 384
  const HEADER_BYTES: nat := 1
  const PROPERTY_MASK: nat := 32       // packet[0] & 0x1F is the remainder by 32
  const UNCONNECTED_MESSAGE: Byte := 8
  const INVALID_PROTOCOL: Byte := 15
  const UINT16_RANGE: nat := 65536

  datatype Info = Info(online: nat, maxPlayers: nat, protocol: nat, name: Text, motd: Text, roundTripMs: int)

  datatype Error =
    Truncated | RejectedProtocol | UnexpectedProperty | UnexpectedMagic | UnexpectedNonce | InvalidText

  // ----- Reading, as functions of the bytes that are left ------------------------------

  datatype Read<+T> = Got(value: T, rest: seq<Byte>) | Failed(error: Error, rest: seq<Byte>)

  function ReadUint(bytes: seq<Byte>, width: nat): Read<nat> {
    if |bytes| < width then Failed(Truncated, bytes)
    else Got(FromLittleEndian(bytes[..width]), bytes[width..])
  }

  /** A length word of size + 1, or 0 for the empty string, then the bytes. */
  function ReadText(bytes: seq<Byte>, utf8: Text -> bool): Read<Text> {
    match ReadUint(bytes, 2)
    case Failed(e, rest) => Failed(e, rest)
    case Got(size, rest) =>
      if size == 0 then Got([], rest)
      else if |rest| < size - 1 then Failed(Truncated, rest)
      else if !utf8(rest[..size - 1]) then Failed(InvalidText, rest[size - 1..])
      else Got(rest[..size - 1], rest[size - 1..])
  }

  // One function a field, in the order in which they are read.

  function ParseTexts(bytes: seq<Byte>, info: Info, utf8: Text -> bool): Result<Info, Error> {
    match ReadText(bytes, utf8)
    case Failed(e, _) => Err(e)
    case Got(name, rest) =>
      match ReadText(rest, utf8)
      case Failed(e, _) => Err(e)
      case Got(motd, _) => Ok(info.(name := name, motd := motd))
  }

  function ParsePlayers(bytes: seq<Byte>, info: Info, utf8: Text -> bool): Result<Info, Error> {
    match ReadUint(bytes, 2)
    case Failed(e, _) => Err(e)
    case Got(online, rest) =>
      match ReadUint(rest, 2)
      case Failed(e, _) => Err(e)
      case Got(maxPlayers, tail) => ParseTexts(tail, info.(online := online, maxPlayers := maxPlayers), utf8)
  }

  function ParseProtocol(bytes: seq<Byte>, nonce: nat, info: Info, utf8: Text -> bool): Result<Info, Error> {
    match ReadUint(bytes, 2)
    case Failed(e, _) => Err(e)
    case Got(protocol, rest) =>
      match ReadUint(rest, 2)
      case Failed(e, _) => Err(e)
      case Got(found, tail) =>
        if found != nonce then Err(UnexpectedNonce) else ParsePlayers(tail, info.(protocol := protocol), utf8)
  }

  function ParsePayload(bytes: seq<Byte>, nonce: nat, info: Info, utf8: Text -> bool): Result<Info, Error> {
    match ReadUint(bytes, 4)
    case Failed(e, _) => Err(e)
    case Got(magic, rest) =>
      if magic != RESPONSE_MAGIC then Err(UnexpectedMagic) else ParseProtocol(rest, nonce, info, utf8)
  }

  function Unread(ms: int): Info {
    Info(0, 0, 0, [], [], ms)
  }

  function Parse(packet: seq<Byte>, nonce: nat, ms: int, utf8: Text -> bool): Result<Info, Error> {
    if |packet| < HEADER_BYTES then Err(Truncated)
    else if packet[0] % PROPERTY_MASK == INVALID_PROTOCOL then Err(RejectedProtocol)
    else if packet[0] % PROPERTY_MASK != UNCONNECTED_MESSAGE then Err(UnexpectedProperty)
    else ParsePayload(packet[HEADER_BYTES..], nonce, Unread(ms), utf8)
  }

  // ----- Writing -----------------------------------------------------------------------

  /** appendLiteNetString, uint16 conversion included. */
  function TextBytes(value: Text): seq<Byte> {
    if value == [] then LittleEndian(0, 2)
    else LittleEndian((|value| + 1) % UINT16_RANGE, 2) + value
  }

  function TextFields(name: seq<Byte>, motd: seq<Byte>, trailing: seq<Byte>): seq<Byte> {
    name + (motd + trailing)
  }

  function PlayerFields(info: Info, texts: seq<Byte>): seq<Byte> {
    LittleEndian(info.online, 2) + (LittleEndian(info.maxPlayers, 2) + texts)
  }

  function ProtocolFields(info: Info, nonce: nat, players: seq<Byte>): seq<Byte> {
    LittleEndian(info.protocol, 2) + (LittleEndian(nonce, 2) + players)
  }

  /** A response whose texts are encoded as `name` and `motd`. */
  function PacketBytes(header: Byte, info: Info, nonce: nat, name: seq<Byte>, motd: seq<Byte>, trailing: seq<Byte>)
    : seq<Byte>
  {
    [header] + (LittleEndian(RESPONSE_MAGIC, 4)
                + ProtocolFields(info, nonce, PlayerFields(info, TextFields(name, motd, trailing))))
  }

  function ResponseBytes(info: Info, nonce: nat, trailing: seq<Byte>): seq<Byte> {
    PacketBytes(UNCONNECTED_MESSAGE, info, nonce, TextBytes(info.name), TextBytes(info.motd), trailing)
  }

  predicate IsUint16(n: nat) {
    n < UINT16_RANGE
  }

  predicate Writable(text: Text, utf8: Text -> bool) {
    |text| <= UINT16_RANGE - 2 && (text != [] ==> utf8(text))
  }

  lemma UintRoundTrip(n: nat, width: nat, rest: seq<Byte>)
    requires n < Pow256(width)
    ensures ReadUint(LittleEndian(n, width) + rest, width) == Got(n, rest)
  {
    DecodeEncode(n, width);
    assert (LittleEndian(n, width) + rest)[..width] == LittleEndian(n, width);
  }

  lemma Uint16RoundTrip(n: nat, rest: seq<Byte>)
    requires IsUint16(n)
    ensures ReadUint(LittleEndian(n, 2) + rest, 2) == Got(n, rest)
  {
    assert Pow256(2) == 256 * Pow256(1) == UINT16_RANGE;
    UintRoundTrip(n, 2, rest);
  }

  /** A text is read back iff its length word did not wrap. */
  lemma TextRoundTripIff(text: Text, rest: seq<Byte>, utf8: Text -> bool)
    requires text != [] ==> utf8(text)
    ensures ReadText(TextBytes(text) + rest, utf8) == Got(text, rest) <==> |text| <= UINT16_RANGE - 2
  {
    var bytes := TextBytes(text) + rest;
    if text == [] {
      Uint16RoundTrip(0, rest);
    } else {
      var size := (|text| + 1) % UINT16_RANGE;
      Uint16RoundTrip(size, text + rest);
      assert bytes == LittleEndian(size, 2) + (text + rest);
      if |text| <= UINT16_RANGE - 2 {
        assert (text + rest)[..size - 1] == text && (text + rest)[size - 1..] == rest;
      }
    }
  }

  lemma TextsRoundTrip(info: Info, read: Info, trailing: seq<Byte>, utf8: Text -> bool)
    requires Writable(info.name, utf8) && Writable(info.motd, utf8)
    ensures ParseTexts(TextFields(TextBytes(info.name), TextBytes(info.motd), trailing), read, utf8)
         == Ok(read.(name := info.name, motd := info.motd))
  {
    TextRoundTripIff(info.name, TextBytes(info.motd) + trailing, utf8);
    TextRoundTripIff(info.motd, trailing, utf8);
  }

  lemma PlayersRoundTrip(info: Info, read: Info, texts: seq<Byte>, utf8: Text -> bool)
    requires IsUint16(info.online) && IsUint16(info.maxPlayers)
    ensures ParsePlayers(PlayerFields(info, texts), read, utf8)
         == ParseTexts(texts, read.(online := info.online, maxPlayers := info.maxPlayers), utf8)
  {
    Uint16RoundTrip(info.online, LittleEndian(info.maxPlayers, 2) + texts);
    Uint16RoundTrip(info.maxPlayers, texts);
  }

  lemma ProtocolRoundTrip(info: Info, nonce: nat, read: Info, players: seq<Byte>, utf8: Text -> bool)
    requires IsUint16(info.protocol) && IsUint16(nonce)
    ensures ParseProtocol(ProtocolFields(info, nonce, players), nonce, read, utf8)
         == ParsePlayers(players, read.(protocol := info.protocol), utf8)
  {
    Uint16RoundTrip(info.protocol, LittleEndian(nonce, 2) + players);
    Uint16RoundTrip(nonce, players);
  }

  lemma MagicRoundTrip(payload: seq<Byte>)
    ensures ReadUint(LittleEndian(RESPONSE_MAGIC, 4) + payload, 4) == Got(RESPONSE_MAGIC, payload)
  {
    assert Pow256(4) == 256 * Pow256(3) == 65536 * Pow256(2) == 65536 * 65536;
    UintRoundTrip(RESPONSE_MAGIC, 4, payload);
  }

  lemma HeaderRoundTrip(body: seq<Byte>, payload: seq<Byte>, nonce: nat, ms: int, utf8: Text -> bool)
    requires ReadUint(body, 4) == Got(RESPONSE_MAGIC, payload)
    ensures Parse([UNCONNECTED_MESSAGE] + body, nonce, ms, utf8) == ParseProtocol(payload, nonce, Unread(ms), utf8)
  {
    assert ([UNCONNECTED_MESSAGE] + body)[HEADER_BYTES..] == body;
  }

  /** Parsing inverts the encoding of every response, and ignores whatever follows it. */
  lemma ResponseRoundTrip(info: Info, nonce: nat, trailing: seq<Byte>, utf8: Text -> bool)
    requires IsUint16(nonce) && IsUint16(info.protocol) && IsUint16(info.online) && IsUint16(info.maxPlayers)
    requires Writable(info.name, utf8) && Writable(info.motd, utf8)
    ensures Parse(ResponseBytes(info, nonce, trailing), nonce, info.roundTripMs, utf8) == Ok(info)
  {
    var texts := TextFields(TextBytes(info.name), TextBytes(info.motd), trailing);
    var players := PlayerFields(info, texts);
    var read := Unread(info.roundTripMs);
    var payload := ProtocolFields(info, nonce, players);
    MagicRoundTrip(payload);
    HeaderRoundTrip(LittleEndian(RESPONSE_MAGIC, 4) + payload, payload, nonce, info.roundTripMs, utf8);
    ProtocolRoundTrip(info, nonce, read, players, utf8);
    PlayersRoundTrip(info, read.(protocol := info.protocol), texts, utf8);
    TextsRoundTrip(info, read.(protocol := info.protocol, online := info.online, maxPlayers := info.maxPlayers),
                   trailing, utf8);
  }

  // ----- What an accepted packet is ----------------------------------------------------

  /** The two forms of an empty text, and the one form of any other. */
  predicate EncodesText(bytes: seq<Byte>, text: Text) {
    |text| <= UINT16_RANGE - 2 && (bytes == TextBytes(text) || (text == [] && bytes == LittleEndian(1, 2)))
  }

  lemma ReadUintForm(bytes: seq<Byte>, width: nat)
    requires ReadUint(bytes, width).Got?
    ensures var r := ReadUint(bytes, width); bytes == LittleEndian(r.value, width) + r.rest
  {
    EncodeDecode(bytes[..width]);
  }

  /** A text that is read follows its length word. */
  lemma ReadTextParts(bytes: seq<Byte>, utf8: Text -> bool)
    requires ReadText(bytes, utf8).Got?
    ensures ReadUint(bytes, 2).Got?
    ensures var word, r := ReadUint(bytes, 2), ReadText(bytes, utf8);
      word.rest == r.value + r.rest && |r.value| == if word.value == 0 then 0 else word.value - 1
  {
  }

  lemma Regrouped(bytes: seq<Byte>, word: seq<Byte>, text: seq<Byte>, rest: seq<Byte>)
    requires bytes == word + (text + rest)
    ensures bytes == word + text + rest
  {
  }

  lemma ReadTextForm(bytes: seq<Byte>, utf8: Text -> bool) returns (form: seq<Byte>)
    requires ReadText(bytes, utf8).Got?
    ensures var r := ReadText(bytes, utf8); EncodesText(form, r.value) && bytes == form + r.rest
  {
    ReadUintForm(bytes, 2);
    ReadTextParts(bytes, utf8);
    var word, r := ReadUint(bytes, 2), ReadText(bytes, utf8);
    WordBelow(bytes[..2]);
    form := TextForm(word.value, word.rest, r.value);
    Regrouped(bytes, LittleEndian(word.value, 2), r.value, r.rest);
  }

  lemma WordBelow(bytes: seq<Byte>)
    requires |bytes| == 2
    ensures FromLittleEndian(bytes) < UINT16_RANGE
  {
    assert Pow256(2) == 256 * Pow256(1) == UINT16_RANGE;
    DecodedInRange(bytes);
  }

  lemma TextForm(word: nat, rest: seq<Byte>, text: Text) returns (form: seq<Byte>)
    requires word < UINT16_RANGE && text <= rest && |text| == if word == 0 then 0 else word - 1
    ensures EncodesText(form, text) && form == LittleEndian(word, 2) + text
  {
    form := LittleEndian(word, 2) + text;
    if word <= 1 { assert form == LittleEndian(word, 2); }
  }

  lemma TextsForm(bytes: seq<Byte>, read: Info, utf8: Text -> bool)
    returns (name: seq<Byte>, motd: seq<Byte>, trailing: seq<Byte>)
    requires ParseTexts(bytes, read, utf8).Ok?
    ensures var info := ParseTexts(bytes, read, utf8).value;
      && bytes == TextFields(name, motd, trailing)
      && EncodesText(name, info.name) && EncodesText(motd, info.motd)
      && info == read.(name := info.name, motd := info.motd)
  {
    name := ReadTextForm(bytes, utf8);
    var rest := ReadText(bytes, utf8).rest;
    motd := ReadTextForm(rest, utf8);
    trailing := ReadText(rest, utf8).rest;
  }

  lemma PlayersForm(bytes: seq<Byte>, read: Info, utf8: Text -> bool) returns (texts: seq<Byte>, next: Info)
    requires ParsePlayers(bytes, read, utf8).Ok?
    ensures ParseTexts(texts, next, utf8) == ParsePlayers(bytes, read, utf8)
    ensures bytes == PlayerFields(next, texts)
    ensures next == read.(online := next.online, maxPlayers := next.maxPlayers)
  {
    ReadUintForm(bytes, 2);
    var online := ReadUint(bytes, 2);
    ReadUintForm(online.rest, 2);
    var maxPlayers := ReadUint(online.rest, 2);
    texts, next := maxPlayers.rest, read.(online := online.value, maxPlayers := maxPlayers.value);
  }

  lemma ProtocolForm(bytes: seq<Byte>, nonce: nat, read: Info, utf8: Text -> bool)
    returns (players: seq<Byte>, next: Info)
    requires ParseProtocol(bytes, nonce, read, utf8).Ok?
    ensures ParsePlayers(players, next, utf8) == ParseProtocol(bytes, nonce, read, utf8)
    ensures bytes == ProtocolFields(next, nonce, players)
    ensures next == read.(protocol := next.protocol)
  {
    ReadUintForm(bytes, 2);
    var protocol := ReadUint(bytes, 2);
    ReadUintForm(protocol.rest, 2);
    players, next := ReadUint(protocol.rest, 2).rest, read.(protocol := protocol.value);
  }

  lemma PayloadForm(body: seq<Byte>, nonce: nat, read: Info, utf8: Text -> bool) returns (payload: seq<Byte>)
    requires ParsePayload(body, nonce, read, utf8).Ok?
    ensures ParsePayload(body, nonce, read, utf8) == ParseProtocol(payload, nonce, read, utf8)
    ensures body == LittleEndian(RESPONSE_MAGIC, 4) + payload
  {
    var magic := ReadUint(body, 4);
    ReadUintForm(body, 4);
    payload := magic.rest;
  }

  lemma HeaderForm(packet: seq<Byte>, nonce: nat, ms: int, utf8: Text -> bool) returns (body: seq<Byte>)
    requires Parse(packet, nonce, ms, utf8).Ok?
    ensures Parse(packet, nonce, ms, utf8) == ParsePayload(body, nonce, Unread(ms), utf8)
    ensures packet == [packet[0]] + body && packet[0] % PROPERTY_MASK == UNCONNECTED_MESSAGE
  {
    body := packet[HEADER_BYTES..];
  }

  /** An accepted packet is a response to this nonce, its texts encoded, and bytes that no one reads. */
  lemma AcceptedForm(packet: seq<Byte>, nonce: nat, ms: int, utf8: Text -> bool)
    returns (name: seq<Byte>, motd: seq<Byte>, trailing: seq<Byte>)
    requires Parse(packet, nonce, ms, utf8).Ok?
    ensures var info := Parse(packet, nonce, ms, utf8).value;
      && packet == PacketBytes(packet[0], info, nonce, name, motd, trailing)
      && packet[0] % PROPERTY_MASK == UNCONNECTED_MESSAGE
      && EncodesText(name, info.name) && EncodesText(motd, info.motd)
      && info.roundTripMs == ms
  {
    var body := HeaderForm(packet, nonce, ms, utf8);
    var payload := PayloadForm(body, nonce, Unread(ms), utf8);
    var players, withProtocol := ProtocolForm(payload, nonce, Unread(ms), utf8);
    var texts, withPlayers := PlayersForm(players, withProtocol, utf8);
    name, motd, trailing := TextsForm(texts, withPlayers, utf8);
  }

  function Word(bytes: seq<Byte>, at: nat, width: nat): nat
    requires at + width <= |bytes|
  {
    FromLittleEndian(bytes[at..at + width])
  }

  /** By position: every field of an accepted packet is the word at its own place. */
  lemma AcceptedLayout(packet: seq<Byte>, nonce: nat, ms: int, utf8: Text -> bool)
    requires Parse(packet, nonce, ms, utf8).Ok?
    ensures var info := Parse(packet, nonce, ms, utf8).value;
      && |packet| >= 13 && packet[0] % 32 == 8
      && Word(packet, 1, 4) == 0xBA51_5102
      && Word(packet, 5, 2) == info.protocol && Word(packet, 7, 2) == nonce
      && Word(packet, 9, 2) == info.online && Word(packet, 11, 2) == info.maxPlayers
  {
    assert packet[1..][..4] == packet[1..5] && packet[1..][4..] == packet[5..];
    assert packet[5..][..2] == packet[5..7] && packet[5..][2..] == packet[7..];
    assert packet[7..][..2] == packet[7..9] && packet[7..][2..] == packet[9..];
    assert packet[9..][..2] == packet[9..11] && packet[9..][2..] == packet[11..];
    assert packet[11..][..2] == packet[11..13];
  }

  // ----- The code ----------------------------------------------------------------------

  /** packetReader: a position that never leaves the data. */
  class PacketReader {
    const data: seq<Byte>
    var pos: nat

    ghost predicate Valid()
      reads this
    {
      pos <= |data|
    }

    ghost function Rest(): seq<Byte>
      reads this
      requires Valid()
    {
      data[pos..]
    }

    constructor (data: seq<Byte>)
      ensures this.data == data && Valid() && Rest() == data
    {
      this.data, pos := data, 0;
    }

    /** The next bytes, stepped over. */
    method Take(size: nat) returns (bytes: seq<Byte>)
      requires Valid() && size <= |Rest()|
      modifies this
      ensures Valid()
      ensures bytes == old(Rest())[..size] && Rest() == old(Rest())[size..]
    {
      bytes := data[pos..pos + size];
      pos := pos + size;
    }

    method Uint(width: nat) returns (r: Result<nat, Error>)
      requires Valid()
      modifies this
      ensures Valid()
      ensures var read := ReadUint(old(Rest()), width);
        && Rest() == read.rest
        && r == match read case Got(v, _) => Ok(v) case Failed(e, _) => Err(e)
    {
      if |data| - pos < width { return Err(Truncated); }
      var bytes := Take(width);
      r := Ok(FromLittleEndian(bytes));
    }

    method LiteNetString(utf8: Text -> bool) returns (r: Result<Text, Error>)
      requires Valid()
      modifies this
      ensures Valid()
      ensures var read := ReadText(old(Rest()), utf8);
        && Rest() == read.rest
        && r == match read case Got(v, _) => Ok(v) case Failed(e, _) => Err(e)
    {
      var size := Uint(2);
      if size.Err? { return Err(size.error); }
      if size.value == 0 { return Ok([]); }
      var actualSize := size.value - 1;
      if |data| - pos < actualSize { return Err(Truncated); }
      var raw := Take(actualSize);
      if !utf8(raw) { return Err(InvalidText); }
      r := Ok(raw);
    }
  }

  /** The players and the texts, read to the end of what ParseResponse reads. */
  method ReadPlayers(reader: PacketReader, info: Info, utf8: Text -> bool) returns (result: Result<Info, Error>)
    requires reader.Valid()
    modifies reader
    ensures reader.Valid() && result == ParsePlayers(old(reader.Rest()), info, utf8)
  {
    var online := reader.Uint(2);
    if online.Err? { return Err(online.error); }
    var maxPlayers := reader.Uint(2);
    if maxPlayers.Err? { return Err(maxPlayers.error); }
    var name := reader.LiteNetString(utf8);
    if name.Err? { return Err(name.error); }
    var motd := reader.LiteNetString(utf8);
    if motd.Err? { return Err(motd.error); }
    result := Ok(info.(online := online.value, maxPlayers := maxPlayers.value, name := name.value, motd := motd.value));
  }

  method ParseResponse(packet: seq<Byte>, expectedNonce: nat, ms: int, utf8: Text -> bool)
    returns (result: Result<Info, Error>)
    ensures result == Parse(packet, expectedNonce, ms, utf8)
  {
    if |packet| < HEADER_BYTES { return Err(Truncated); }
    var property := packet[0] % PROPERTY_MASK;
    if property == INVALID_PROTOCOL { return Err(RejectedProtocol); }
    if property != UNCONNECTED_MESSAGE { return Err(UnexpectedProperty); }
    var reader := new PacketReader(packet[HEADER_BYTES..]);
    var magic := reader.Uint(4);
    if magic.Err? { return Err(magic.error); }
    if magic.value != RESPONSE_MAGIC { return Err(UnexpectedMagic); }
    var protocol := reader.Uint(2);
    if protocol.Err? { return Err(protocol.error); }
    var nonce := reader.Uint(2);
    if nonce.Err? { return Err(nonce.error); }
    if nonce.value != expectedNonce { return Err(UnexpectedNonce); }
    result := ReadPlayers(reader, Unread(ms).(protocol := protocol.value), utf8);
  }

  /** The query: header, magic, version, nonce, and zeros up to the minimum request size. */
  method BuildQueryPacket(nonce: nat) returns (packet: seq<Byte>)
    requires IsUint16(nonce)
    ensures |packet| == HEADER_BYTES + MIN_REQUEST_BYTES
    ensures packet[0] == UNCONNECTED_MESSAGE && Word(packet, 1, 4) == QUERY_MAGIC
    ensures Word(packet, 5, 2) == PROTOCOL_VERSION && Word(packet, 7, 2) == nonce
    ensures forall i | 9 <= i < |packet| :: packet[i] == 0
  {
    var magic, version, tag := LittleEndian(QUERY_MAGIC, 4), LittleEndian(PROTOCOL_VERSION, 2), LittleEndian(nonce, 2);
    packet := [UNCONNECTED_MESSAGE];
    packet := packet + magic;
    packet := packet + version;
    packet := packet + tag;
    ghost var head := packet;
    while |packet| - HEADER_BYTES < MIN_REQUEST_BYTES
      invariant 9 <= |packet| <= HEADER_BYTES + MIN_REQUEST_BYTES
      invariant packet[..9] == head
      invariant forall i | 9 <= i < |packet| :: packet[i] == 0
    {
      packet := packet + [0];
    }
    assert packet[1..5] == head[1..5] == magic;
    assert packet[5..7] == head[5..7] == version;
    assert packet[7..9] == head[7..9] == tag;
    assert Pow256(2) == 256 * Pow256(1) == UINT16_RANGE;
    assert Pow256(4) == 256 * Pow256(3) == 65536 * Pow256(2);
    DecodeEncode(QUERY_MAGIC, 4);
    DecodeEncode(PROTOCOL_VERSION, 2);
    DecodeEncode(nonce, 2);
  }
}
