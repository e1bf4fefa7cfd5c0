/** Big-endian integers as byte strings. */
module BigEndian {
  import opened Words

  type Byte = x: int | 0 <= x < 256
  type U16 = x: int | 0 <= x < 0x1_0000

  /** The `n` low-order bytes of `v`, most significant first. */
  function Encode(v: nat, n: nat): (s: seq<Byte>)
    ensures |s| == n
  {
    if n == 0 then [] else Encode(v / 256, n - 1) + [v % 256]
  }

  function Decode(s: seq<Byte>): nat {
    if s == [] then 0 else Decode(s[..|s| - 1]) * 256 + s[|s| - 1]
  }

  function Capacity(n: nat): nat {
    if n == 0 then 1 else 256 * Capacity(n - 1)
  }

  lemma {:induction false} DecodeEncode(v: nat, n: nat)
    requires v < Capacity(n)
    ensures Decode(Encode(v, n)) == v
  {
    if n > 0 {
      DecodeEncode(v / 256, n - 1);
      var s := Encode(v, n);
      assert s[..n - 1] == Encode(v / 256, n - 1);
    }
  }

  lemma {:induction false} EncodeDecode(s: seq<Byte>)
    ensures Decode(s) < Capacity(|s|) && Encode(Decode(s), |s|) == s
  {
    if s != [] {
      EncodeDecode(s[..|s| - 1]);
      assert s == s[..|s| - 1] + [s[|s| - 1]];
    }
  }

  /** The most significant byte comes first. */
  lemma {:induction false} MostSignificantFirst(v: nat, n: nat)
    ensures n >= 2 ==> Encode(v, n)[n - 2] == v / 256 % 256
    ensures n >= 1 ==> Encode(v, n)[n - 1] == v % 256 && Encode(v, n)[..n - 1] == Encode(v / 256, n - 1)
  {
    if n >= 2 {
      assert Encode(v / 256, n - 1)[n - 2] == v / 256 % 256;
    }
  }

  lemma Capacities()
    ensures Capacity(2) == 0x1_0000 && Capacity(8) == WORD
  {
    assert Capacity(2) == 256 * 256;
    assert Capacity(4) == 256 * (256 * Capacity(2));
    assert Capacity(6) == 256 * (256 * Capacity(4));
    assert Capacity(8) == 256 * (256 * Capacity(6));
  }
}

/** The wire format of the inter-node tunnel. The MAC is an arbitrary function of secret and
    message with a 32-byte value. */
module ForwardCodec {
  import opened Options
  import opened Words
  import opened BigEndian

  const MAGIC: U16 := 0x4C46
  const VERSION: Byte := 1
  const TAG_SIZE: nat := 32
  const MIN_SECRET_SIZE: nat := 16
  const MAX_DATAGRAM_SIZE: nat := 2200
  const FIXED_HEADER_SIZE: nat := 32
  const MAX_PACKET_SIZE: nat := 2048

  type Tag = s: seq<Byte> | |s| == 32 witness seq(32, _ => 0)
  type Mac = (seq<Byte>, seq<Byte>) -> Tag

  datatype Kind = Request | Response

  datatype Address = Ip4(bytes: seq<Byte>, port: U16) | Ip6(bytes: seq<Byte>, port: U16) {
    predicate Valid() {
      |bytes| == if Ip4? then 4 else 16
    }
  }

  datatype Decoded = Decoded(
    kind: Kind, sourceNode: U16, sourceWorker: Byte, targetNode: U16, targetWorker: Byte,
    session: Word, sequence: Word, client: Address, payload: seq<Byte>)

  datatype CodecError =
    | BufferTooSmall | PacketTooLarge | SecretTooShort | MessageTooShort | BadMagic | BadVersion
    | InvalidIdentity | BadKind | BadAddressFamily | InvalidTag | TrailingBytes

  predicate Identified(d: Decoded) {
    d.sourceNode != 0 && d.targetNode != 0 && d.session != 0 && d.sequence != 0
  }

  function KindByte(kind: Kind): Byte {
    if kind == Request then 1 else 2
  }

  function Family(a: Address): Byte {
    if a.Ip4? then 4 else 6
  }

  /** The 32 fixed bytes. */
  function Header(d: Decoded): (h: seq<Byte>)
    ensures |h| == FIXED_HEADER_SIZE
  {
    Encode(MAGIC, 2) + [VERSION, d.targetWorker, Family(d.client)] + Encode(d.client.port, 2) + Encode(|d.payload|, 2)
    + Encode(d.sourceNode, 2) + Encode(d.targetNode, 2) + Encode(d.session, 8) + Encode(d.sequence, 8)
    + [KindByte(d.kind), d.sourceWorker, 0]
  }

  function Authenticated(d: Decoded): seq<Byte> {
    Header(d) + d.client.bytes + d.payload
  }

  /** The datagram that carries `d`. */
  function Wire(d: Decoded, secret: seq<Byte>, mac: Mac): seq<Byte> {
    Authenticated(d) + mac(secret, Authenticated(d))
  }

  // ---- decoding ----

  function DecodePacket(bytes: seq<Byte>, secret: seq<Byte>, mac: Mac): Result<Decoded, CodecError> {
    if |secret| < MIN_SECRET_SIZE then Err(SecretTooShort)
    else if |bytes| < FIXED_HEADER_SIZE + 4 + TAG_SIZE then Err(MessageTooShort)
    else if Decode(bytes[0..2]) != MAGIC then Err(BadMagic)
    else if bytes[2] != VERSION then Err(BadVersion)
    else if bytes[31] != 0 then Err(BadVersion)
    else if bytes[29] != 1 && bytes[29] != 2 then Err(BadKind)
    else
      Bounds(bytes);
      var sourceNode: U16 := Decode(bytes[9..11]);
      var targetNode: U16 := Decode(bytes[11..13]);
      var session: Word := Decode(bytes[13..21]);
      var sequence: Word := Decode(bytes[21..29]);
      if sourceNode == 0 || targetNode == 0 || session == 0 || sequence == 0 then Err(InvalidIdentity)
      else if bytes[4] != 4 && bytes[4] != 6 then Err(BadAddressFamily)
      else
        var addressLen := if bytes[4] == 4 then 4 else 16;
        var payloadOffset := FIXED_HEADER_SIZE + addressLen;
        var authenticatedLen := payloadOffset + Decode(bytes[7..9]);
        if authenticatedLen + TAG_SIZE != |bytes| then Err(TrailingBytes)
        else if mac(secret, bytes[..authenticatedLen]) != bytes[authenticatedLen..] then Err(InvalidTag)
        else
          var port: U16 := Decode(bytes[5..7]);
          var address := bytes[FIXED_HEADER_SIZE..payloadOffset];
          Ok(Decoded(if bytes[29] == 1 then Request else Response, sourceNode, bytes[30], targetNode, bytes[3],
                     session, sequence, if bytes[4] == 4 then Ip4(address, port) else Ip6(address, port),
                     bytes[payloadOffset..authenticatedLen]))
  }

  lemma Bounds(bytes: seq<Byte>)
    requires |bytes| >= FIXED_HEADER_SIZE
    ensures Decode(bytes[5..7]) < 0x1_0000 && Decode(bytes[7..9]) < 0x1_0000
    ensures Decode(bytes[9..11]) < 0x1_0000 && Decode(bytes[11..13]) < 0x1_0000
    ensures Decode(bytes[13..21]) < WORD && Decode(bytes[21..29]) < WORD
  {
    Capacities();
    hide Capacity, Decode;
    EncodeDecode(bytes[5..7]);
    EncodeDecode(bytes[7..9]);
    EncodeDecode(bytes[9..11]);
    EncodeDecode(bytes[11..13]);
    EncodeDecode(bytes[13..21]);
    EncodeDecode(bytes[21..29]);
  }

  function DecodeWithFallback(bytes: seq<Byte>, current: seq<Byte>, previous: seq<Byte>, mac: Mac): Result<Decoded, CodecError> {
    var r := DecodePacket(bytes, current, mac);
    if r == Err(InvalidTag) then
      if previous == [] then Err(InvalidTag) else DecodePacket(bytes, previous, mac)
    else r
  }

  /** Where each header field of a datagram sits. */
  lemma HeaderFields(d: Decoded, tail: seq<Byte>)
    ensures var b := Header(d) + tail;
            && b[0..2] == Encode(MAGIC, 2) && b[2] == VERSION && b[3] == d.targetWorker && b[4] == Family(d.client)
            && b[5..7] == Encode(d.client.port, 2) && b[7..9] == Encode(|d.payload|, 2)
            && b[9..11] == Encode(d.sourceNode, 2) && b[11..13] == Encode(d.targetNode, 2)
            && b[13..21] == Encode(d.session, 8) && b[21..29] == Encode(d.sequence, 8)
            && b[29] == KindByte(d.kind) && b[30] == d.sourceWorker && b[31] == 0
  {
    hide Encode;
  }

  /** Where the variable parts of a datagram sit. */
  lemma WireParts(d: Decoded, secret: seq<Byte>, mac: Mac)
    ensures var b := Wire(d, secret, mac);
            var a := FIXED_HEADER_SIZE + |d.client.bytes|;
            && |b| == a + |d.payload| + TAG_SIZE
            && b == Header(d) + (d.client.bytes + d.payload + mac(secret, Authenticated(d)))
            && b[FIXED_HEADER_SIZE..a] == d.client.bytes && b[a..a + |d.payload|] == d.payload
            && b[..a + |d.payload|] == Authenticated(d) && b[a + |d.payload|..] == mac(secret, Authenticated(d))
  {
    hide Header;
  }

  /** Decoding what was encoded gives the same packet, for both address families and for every
      payload the length field can express. */
  lemma DecodeOfWire(d: Decoded, secret: seq<Byte>, mac: Mac)
    requires |secret| >= MIN_SECRET_SIZE && Identified(d) && d.client.Valid() && |d.payload| < 0x1_0000
    ensures DecodePacket(Wire(d, secret, mac), secret, mac) == Ok(d)
  {
    WireParts(d, secret, mac);
    HeaderFields(d, d.client.bytes + d.payload + mac(secret, Authenticated(d)));
    Capacities();
    DecodeEncode(MAGIC, 2);
    DecodeEncode(d.client.port, 2);
    DecodeEncode(|d.payload|, 2);
    DecodeEncode(d.sourceNode, 2);
    DecodeEncode(d.targetNode, 2);
    DecodeEncode(d.session, 8);
    DecodeEncode(d.sequence, 8);
    hide Encode, Decode, Header, Capacity, Wire, Authenticated;
  }

  /** Each field of a decoded packet, where the datagram has it. */
  lemma FieldsOfDecode(bytes: seq<Byte>, secret: seq<Byte>, mac: Mac)
    requires DecodePacket(bytes, secret, mac).Ok?
    ensures var d := DecodePacket(bytes, secret, mac).value;
            var a := FIXED_HEADER_SIZE + |d.client.bytes|;
            && Identified(d) && d.client.Valid() && |bytes| == a + |d.payload| + TAG_SIZE
            && HoldsFields(bytes, d) && bytes[FIXED_HEADER_SIZE..a] == d.client.bytes && bytes[a..a + |d.payload|] == d.payload
            && bytes[a + |d.payload|..] == mac(secret, bytes[..a + |d.payload|])
  {
    hide Encode, Decode, Capacity;
  }

  /** The fixed header says what `d` says. */
  predicate HoldsFields(b: seq<Byte>, d: Decoded) {
    && |b| >= FIXED_HEADER_SIZE && Decode(b[0..2]) == MAGIC && b[2] == VERSION && b[3] == d.targetWorker && b[4] == Family(d.client)
    && Decode(b[5..7]) == d.client.port && Decode(b[7..9]) == |d.payload| && Decode(b[9..11]) == d.sourceNode
    && Decode(b[11..13]) == d.targetNode && Decode(b[13..21]) == d.session && Decode(b[21..29]) == d.sequence
    && b[29] == KindByte(d.kind) && b[30] == d.sourceWorker && b[31] == 0
  }

  /** Then it is the header of `d`. */
  lemma HeaderOfFields(b: seq<Byte>, d: Decoded)
    requires HoldsFields(b, d)
    ensures b[..FIXED_HEADER_SIZE] == Header(d)
  {
    hide Encode, Decode, Capacity;
    EncodeDecode(b[0..2]);
    EncodeDecode(b[5..7]);
    EncodeDecode(b[7..9]);
    EncodeDecode(b[9..11]);
    EncodeDecode(b[11..13]);
    EncodeDecode(b[13..21]);
    EncodeDecode(b[21..29]);
  }

  /** A datagram put together from its parts. */
  lemma WireFromParts(bytes: seq<Byte>, d: Decoded, secret: seq<Byte>, mac: Mac)
    requires var a := FIXED_HEADER_SIZE + |d.client.bytes|;
             && |bytes| == a + |d.payload| + TAG_SIZE && bytes[..FIXED_HEADER_SIZE] == Header(d)
             && bytes[FIXED_HEADER_SIZE..a] == d.client.bytes && bytes[a..a + |d.payload|] == d.payload
             && bytes[a + |d.payload|..] == mac(secret, bytes[..a + |d.payload|])
    ensures bytes == Wire(d, secret, mac)
  {
    hide Header;
    var a := FIXED_HEADER_SIZE + |d.client.bytes|;
    assert bytes[..a + |d.payload|] == bytes[..FIXED_HEADER_SIZE] + bytes[FIXED_HEADER_SIZE..a] + bytes[a..a + |d.payload|];
    assert bytes == bytes[..a + |d.payload|] + bytes[a + |d.payload|..];
  }

  /** Every datagram that decodes is, byte for byte, the encoding of what it decodes to. */
  lemma WireOfDecode(bytes: seq<Byte>, secret: seq<Byte>, mac: Mac)
    requires DecodePacket(bytes, secret, mac).Ok?
    ensures var d := DecodePacket(bytes, secret, mac).value;
            bytes == Wire(d, secret, mac) && Identified(d) && d.client.Valid() && |d.payload| < 0x1_0000
  {
    hide *;
    FieldsOfDecode(bytes, secret, mac);
    var d := DecodePacket(bytes, secret, mac).value;
    LengthFits(bytes, d);
    HeaderOfFields(bytes, d);
    WireFromParts(bytes, d, secret, mac);
  }

  lemma LengthFits(b: seq<Byte>, d: Decoded)
    requires HoldsFields(b, d)
    ensures |b| >= FIXED_HEADER_SIZE == 32 && |d.payload| < 0x1_0000
  {
    Bounds(b);
    hide Decode;
  }

  lemma TwoBytes(b: seq<Byte>, i: nat)
    requires i + 2 <= |b|
    ensures Decode(b[i..i + 2]) == 256 * (b[i] as int) + b[i + 1]
  {
    var s := b[i..i + 2];
    assert s[..1][..0] == [] && Decode(s[..1]) == s[0];
  }

  lemma {:induction false} ZeroBytes(s: seq<Byte>)
    ensures Decode(s) == 0 <==> forall k :: 0 <= k < |s| ==> s[k] == 0
  {
    if s != [] {
      ZeroBytes(s[..|s| - 1]);
    }
  }

  predicate AllZero(b: seq<Byte>, lo: nat, hi: nat)
    requires lo <= hi <= |b|
  {
    forall k :: lo <= k < hi ==> b[k] == 0
  }

  lemma ZeroField(b: seq<Byte>, lo: nat, hi: nat)
    requires lo <= hi <= |b|
    ensures Decode(b[lo..hi]) == 0 <==> AllZero(b, lo, hi)
  {
    ZeroBytes(b[lo..hi]);
    hide Decode;
    forall k | lo <= k < hi ensures b[k] == b[lo..hi][k - lo] {
    }
  }

  /** Why decoding refuses, byte by byte. */
  lemma {:induction false} DecodeRefuses(b: seq<Byte>, secret: seq<Byte>, mac: Mac)
    requires DecodePacket(b, secret, mac).Err?
    ensures var e := DecodePacket(b, secret, mac).error;
            if |secret| < 16 then e == SecretTooShort
            else if |b| < 68 then e == MessageTooShort
            else match e
              case BadMagic => b[0] != 0x4C || b[1] != 0x46
              case BadVersion => b[2] != 1 || b[31] != 0
              case BadKind => b[29] != 1 && b[29] != 2
              case InvalidIdentity => AllZero(b, 9, 11) || AllZero(b, 11, 13) || AllZero(b, 13, 21) || AllZero(b, 21, 29)
              case BadAddressFamily => b[4] != 4 && b[4] != 6
              case TrailingBytes => |b| != (if b[4] == 4 then 68 else 80) + 256 * (b[7] as int) + b[8]
              case InvalidTag => mac(secret, b[..|b| - 32]) != b[|b| - 32..]
              case _ => false
  {
    if |b| >= 68 {
      TwoBytes(b, 0);
      TwoBytes(b, 7);
      ZeroField(b, 9, 11);
      ZeroField(b, 11, 13);
      ZeroField(b, 13, 21);
      ZeroField(b, 21, 29);
    }
    hide Decode, AllZero;
  }

  // ---- encoding ----

  /** What encoding does: the first failed check, or the datagram. */
  function EncodePacket(d: Decoded, secret: seq<Byte>, mac: Mac, room: nat): Result<seq<Byte>, CodecError> {
    if |secret| < MIN_SECRET_SIZE then Err(SecretTooShort)
    else if !Identified(d) then Err(InvalidIdentity)
    else if |d.payload| > MAX_PACKET_SIZE then Err(PacketTooLarge)
    else if room < FIXED_HEADER_SIZE + |d.client.bytes| + |d.payload| + TAG_SIZE then Err(BufferTooSmall)
    else Ok(Wire(d, secret, mac))
  }

  /** Why encoding refuses, in this order: a secret under 16 bytes, an identity that is zero, a payload over
      2048 bytes, a buffer that is too short. */
  lemma EncodeRefuses(d: Decoded, secret: seq<Byte>, mac: Mac, room: nat)
    requires d.client.Valid()
    ensures var r := EncodePacket(d, secret, mac, room);
            var zero := d.sourceNode == 0 || d.targetNode == 0 || d.session == 0 || d.sequence == 0;
            && (r == Err(SecretTooShort) <==> |secret| < 16)
            && (r == Err(InvalidIdentity) <==> |secret| >= 16 && zero)
            && (r == Err(PacketTooLarge) <==> |secret| >= 16 && !zero && |d.payload| > 2048)
            && (r == Err(BufferTooSmall) <==>
                  |secret| >= 16 && !zero && |d.payload| <= 2048 && room < (if d.client.Ip4? then 68 else 80) + |d.payload|)
            && (r.Err? ==> r.error in {SecretTooShort, InvalidIdentity, PacketTooLarge, BufferTooSmall})
  {
    hide Wire;
  }

  /** One write at the running offset: the bytes before it are extended, the bytes after it kept. */
  method Put(out: array<Byte>, offset: nat, bytes: seq<Byte>) returns (end: nat)
    requires offset + |bytes| <= out.Length
    modifies out
    ensures end == offset + |bytes| && out[..end] == old(out[..offset]) + bytes
    ensures forall k :: end <= k < out.Length ==> out[k] == old(out[k])
  {
    forall k | 0 <= k < |bytes| {
      out[offset + k] := bytes[k];
    }
    end := offset + |bytes|;
  }

  /** The fixed part, field by field. */
  method PutHeader(d: Decoded, out: array<Byte>) returns (end: nat)
    requires FIXED_HEADER_SIZE <= out.Length && |d.payload| <= MAX_PACKET_SIZE
    modifies out
    ensures end == FIXED_HEADER_SIZE && out[..end] == Header(d)
    ensures forall k :: end <= k < out.Length ==> out[k] == old(out[k])
  {
    hide Encode, HeaderStart, HeaderEnd;
    HeaderParts(d);
    end := PutStart(d, out);
    end := PutEnd(d, out, end);
  }

  /** The header up to the lengths, and from the identities on. */
  function HeaderStart(d: Decoded): (h: seq<Byte>)
    ensures |h| == 9
  {
    Encode(MAGIC, 2) + [VERSION, d.targetWorker, Family(d.client)] + Encode(d.client.port, 2) + Encode(|d.payload|, 2)
  }

  function HeaderEnd(d: Decoded): (h: seq<Byte>)
    ensures |h| == 23
  {
    Encode(d.sourceNode, 2) + Encode(d.targetNode, 2) + Encode(d.session, 8) + Encode(d.sequence, 8)
    + [KindByte(d.kind), d.sourceWorker, 0]
  }

  lemma HeaderParts(d: Decoded)
    ensures Header(d) == HeaderStart(d) + HeaderEnd(d)
  {
    hide Encode;
  }

  method PutStart(d: Decoded, out: array<Byte>) returns (end: nat)
    requires FIXED_HEADER_SIZE <= out.Length
    modifies out
    ensures end == 9 && out[..end] == HeaderStart(d)
    ensures forall k :: end <= k < out.Length ==> out[k] == old(out[k])
  {
    hide Encode;
    end := Put(out, 0, Encode(MAGIC, 2));
    end := Put(out, end, [VERSION, d.targetWorker, Family(d.client)]);
    end := Put(out, end, Encode(d.client.port, 2));
    end := Put(out, end, Encode(|d.payload|, 2));
  }

  method PutEnd(d: Decoded, out: array<Byte>, offset: nat) returns (end: nat)
    requires offset + 23 <= out.Length
    modifies out
    ensures end == offset + 23 && out[..end] == old(out[..offset]) + HeaderEnd(d)
    ensures forall k :: end <= k < out.Length ==> out[k] == old(out[k])
  {
    hide Encode;
    end := Put(out, offset, Encode(d.sourceNode, 2));
    end := Put(out, end, Encode(d.targetNode, 2));
    end := Put(out, end, Encode(d.session, 8));
    end := Put(out, end, Encode(d.sequence, 8));
    end := Put(out, end, [KindByte(d.kind), d.sourceWorker, 0]);
  }

  /** Fills the caller's buffer in wire order; on an error the buffer is left alone. */
  method EncodeInto(d: Decoded, secret: seq<Byte>, mac: Mac, out: array<Byte>) returns (r: Result<nat, CodecError>)
    requires d.client.Valid()
    modifies out
    ensures match EncodePacket(d, secret, mac, out.Length)
            case Err(e) => r == Err(e) && out[..] == old(out[..])
            case Ok(b) => r == Ok(|b|) && |b| <= out.Length && out[..|b|] == b && out[|b|..] == old(out[|b|..])
  {
    hide Header;
    if |secret| < MIN_SECRET_SIZE {
      return Err(SecretTooShort);
    }
    if !Identified(d) {
      return Err(InvalidIdentity);
    }
    if |d.payload| > MAX_PACKET_SIZE {
      return Err(PacketTooLarge);
    }
    if out.Length < FIXED_HEADER_SIZE + |d.client.bytes| + |d.payload| + TAG_SIZE {
      return Err(BufferTooSmall);
    }
    var at := PutHeader(d, out);
    at := Put(out, at, d.client.bytes);
    at := Put(out, at, d.payload);
    at := Put(out, at, mac(secret, out[..at]));
    return Ok(at);
  }

  /** Acceptance in both directions: a datagram decodes to `d` exactly when it is what encoding `d`
      into the 2200-byte buffer yields, as long as the payload is within the encoder's bound. */
  lemma DecodesIffEncodes(bytes: seq<Byte>, d: Decoded, secret: seq<Byte>, mac: Mac)
    requires d.client.Valid() && |d.payload| <= MAX_PACKET_SIZE
    ensures DecodePacket(bytes, secret, mac) == Ok(d) <==> EncodePacket(d, secret, mac, MAX_DATAGRAM_SIZE) == Ok(bytes)
  {
    hide Wire, Decode;
    if DecodePacket(bytes, secret, mac) == Ok(d) {
      WireOfDecode(bytes, secret, mac);
    }
    if EncodePacket(d, secret, mac, MAX_DATAGRAM_SIZE) == Ok(bytes) {
      DecodeOfWire(d, secret, mac);
    }
  }

  /** The 2200-byte buffer always suffices: encoding into it never reports a short buffer. */
  lemma BufferAlwaysSuffices(d: Decoded, secret: seq<Byte>, mac: Mac)
    requires d.client.Valid()
    ensures EncodePacket(d, secret, mac, MAX_DATAGRAM_SIZE) != Err(BufferTooSmall)
    ensures EncodePacket(d, secret, mac, MAX_DATAGRAM_SIZE).Ok? ==>
              |EncodePacket(d, secret, mac, MAX_DATAGRAM_SIZE).value| <= 2128
  {
    WireParts(d, secret, mac);
  }

  /** The decoder alone does not bound the payload: it accepts what the encoder refuses to build. */
  lemma OversizedPayloadDecodes(d: Decoded, secret: seq<Byte>, mac: Mac)
    requires |secret| >= MIN_SECRET_SIZE && Identified(d) && d.client.Valid()
    requires MAX_PACKET_SIZE < |d.payload| < 0x1_0000
    ensures DecodePacket(Wire(d, secret, mac), secret, mac) == Ok(d)
    ensures EncodePacket(d, secret, mac, |Wire(d, secret, mac)|) == Err(PacketTooLarge)
  {
    DecodeOfWire(d, secret, mac);
  }

  // ---- key rotation ----

  /** The secret only decides whether a datagram is authentic, never what it says. */
  lemma SecretDoesNotChangeTheFields(bytes: seq<Byte>, a: seq<Byte>, b: seq<Byte>, mac: Mac)
    requires |a| >= MIN_SECRET_SIZE && |b| >= MIN_SECRET_SIZE
    ensures var x, y := DecodePacket(bytes, a, mac), DecodePacket(bytes, b, mac);
            (x == y || x == Err(InvalidTag) || y == Err(InvalidTag)) && (x.Ok? && y.Ok? ==> x == y)
  {
    hide Decode;
  }

  /** During a rotation a datagram made with either secret decodes to its packet. */
  lemma RotationAcceptsBothSecrets(d: Decoded, signed: seq<Byte>, current: seq<Byte>, previous: seq<Byte>, mac: Mac)
    requires Identified(d) && d.client.Valid() && |d.payload| < 0x1_0000
    requires |current| >= MIN_SECRET_SIZE && |previous| >= MIN_SECRET_SIZE
    requires signed == current || signed == previous
    ensures DecodeWithFallback(Wire(d, signed, mac), current, previous, mac) == Ok(d)
  {
    hide DecodePacket, Wire;
    DecodeOfWire(d, signed, mac);
    SecretDoesNotChangeTheFields(Wire(d, signed, mac), current, previous, mac);
  }

  /** Whatever the fallback accepts is authentic under one of the two secrets. */
  lemma FallbackIsSound(bytes: seq<Byte>, current: seq<Byte>, previous: seq<Byte>, mac: Mac)
    requires DecodeWithFallback(bytes, current, previous, mac).Ok?
    ensures var d := DecodeWithFallback(bytes, current, previous, mac).value;
            && Identified(d) && d.client.Valid() && |d.payload| < 0x1_0000
            && (bytes == Wire(d, current, mac) || (previous != [] && bytes == Wire(d, previous, mac)))
  {
    hide DecodePacket, Wire;
    if DecodePacket(bytes, current, mac).Ok? {
      WireOfDecode(bytes, current, mac);
    } else {
      WireOfDecode(bytes, previous, mac);
    }
  }
}
