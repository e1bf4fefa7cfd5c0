/** The client agent's blocking frame reader and writer, against the gateway's scanner. */
module ClientWire {
  import opened Options
  import opened BigEndian
  import opened FrameHeaders
  import opened FrameScanning

  datatype WireError = Truncated | UnknownType | UnknownDest | UnknownResponse | ReservedBits | OversizedBody

  /** Header fields as the agent keeps them: raw bytes, validated on the way in and out. */
  datatype RawHeader = RawHeader(kind: Byte, flags: Byte, bodyLen: U16, dest: Byte, response: Byte, group: Byte, routeKey: Byte)
  datatype RawFrame = RawFrame(header: RawHeader, body: seq<Byte>)

  class Reader {
    var rest: seq<Byte>

    constructor (bytes: seq<Byte>)
      ensures rest == bytes
    {
      rest := bytes;
    }

    /** Exactly n bytes, or an error after taking whatever was left. */
    method ReadFull(n: nat) returns (r: Result<seq<Byte>, WireError>)
      modifies this
      ensures n <= |old(rest)| ==> r == Ok(old(rest)[..n]) && rest == old(rest)[n..]
      ensures n > |old(rest)| ==> r == Err(Truncated) && rest == []
    {
      if n > |rest| {
        rest := [];
        return Err(Truncated);
      }
      r := Ok(rest[..n]);
      rest := rest[n..];
    }
  }

  class Writer {
    var written: seq<Byte>

    constructor ()
      ensures written == []
    {
      written := [];
    }

    method Write(bytes: seq<Byte>)
      modifies this
      ensures written == old(written) + bytes
    {
      written := written + bytes;
    }
  }

  predicate BadFlags(kind: Byte, flags: Byte) {
    flags / 8 != 0 || (kind == 1 && flags / 2 % 2 == 1)
  }

  /** The protocol frame a raw frame stands for, or what is wrong with it. */
  function Meaning(f: RawFrame): Result<Frame, WireError> {
    var h := f.header;
    if |f.body| > MAX_BODY_SIZE then Err(OversizedBody)
    else if BadFlags(h.kind, h.flags) then Err(ReservedBits)
    else if h.kind == 1 then Ok(Frame(Data(DecodeFlags(h.flags).value, |f.body|), f.body))
    else if h.kind != 0 then Err(UnknownType)
    else if DecodeDest(h.dest).Err? then Err(UnknownDest)
    else if DecodeResponse(h.response).Err? then Err(UnknownResponse)
    else Ok(Frame(Open(DecodeFlags(h.flags).value, |f.body|, DecodeDest(h.dest).value, DecodeResponse(h.response).value,
                       h.group, h.routeKey), f.body))
  }

  /** What is wrong with a raw frame, in this order. */
  lemma RefusedFor(f: RawFrame)
    requires Meaning(f).Err?
    ensures var h := f.header;
            Meaning(f).error ==
              if |f.body| > 65535 then OversizedBody
              else if h.flags >= 8 || (h.kind == 1 && h.flags / 2 % 2 == 1) then ReservedBits
              else if h.kind > 1 then UnknownType
              else if h.dest > 3 then UnknownDest
              else UnknownResponse
    ensures Meaning(f).error == UnknownResponse ==> f.header.kind == 0 && f.header.response > 1
    ensures Meaning(f).error == UnknownDest ==> f.header.kind == 0
  {
  }

  /** The bytes of the frame a raw frame stands for, in the raw frame's own fields. */
  lemma MeaningBytes(f: RawFrame)
    requires Meaning(f).Ok?
    ensures Encodable(Meaning(f).value)
    ensures var h := f.header;
            FrameBytes(Meaning(f).value)
            == [h.kind, h.flags, |f.body| / 256, |f.body| % 256]
               + (if h.kind == 0 then [h.dest, h.response, h.group, h.routeKey] else []) + f.body
  {
    FlagsRoundTrip(Flags(false, false, false), f.header.flags);
    hide FlagsByte;
  }

  /** The agent writes exactly the frames that mean something, as the gateway would encode them; on
      any error nothing has gone out. */
  method WriteFrame(w: Writer, f: RawFrame) returns (r: Result<(), WireError>)
    modifies w
    ensures match Meaning(f)
            case Ok(frame) => r == Ok(()) && w.written == old(w.written) + FrameBytes(frame)
            case Err(e) => r == Err(e) && w.written == old(w.written)
  {
    if Meaning(f).Ok? {
      MeaningBytes(f);
    }
    if |f.body| > MAX_BODY_SIZE {
      return Err(OversizedBody);
    }
    var h := f.header;
    if BadFlags(h.kind, h.flags) {
      return Err(ReservedBits);
    }
    if h.kind == 0 {
      if DecodeDest(h.dest).Err? {
        return Err(UnknownDest);
      }
    } else if h.kind != 1 {
      return Err(UnknownType);
    }
    var header: seq<Byte> := [h.kind, h.flags, |f.body| / 256, |f.body| % 256];
    if h.kind == 0 {
      if DecodeResponse(h.response).Err? {
        return Err(UnknownResponse);
      }
      header := header + [h.dest, h.response, h.group, h.routeKey];
    }
    hide *;
    ghost var before := w.written;
    w.Write(header);
    if |f.body| > 0 {
      w.Write(f.body);
    }
    assert w.written == before + (header + f.body);
    return Ok(());
  }

  /** The bytes start with a whole frame, as the agent checks it. */
  predicate Readable(b: seq<Byte>) {
    && |b| >= 4 && !BadFlags(b[0], b[1]) && b[0] <= 1
    && (b[0] == 0 ==> |b| >= 8 && DecodeDest(b[4]).Ok? && DecodeResponse(b[5]).Ok?)
    && |b| >= (if b[0] == 0 then 8 else 4) + BodyLength(b)
  }

  /** The frame they start with. */
  function FrontFrame(b: seq<Byte>): RawFrame
    requires Readable(b)
  {
    var (open, n) := (b[0] == 0, BodyLength(b));
    var size := if open then 8 else 4;
    RawFrame(if open then RawHeader(b[0], b[1], n, b[4], b[5], b[6], b[7]) else RawHeader(b[0], b[1], n, 0, 0, 0, 0),
             b[size..size + n])
  }

  /** That is when the gateway's scanner finds a frame, and which. */
  lemma ReadableIsReady(b: seq<Byte>)
    ensures NextFrame(b, MAX_FRAME_SIZE).Ready? <==> Readable(b)
    ensures Readable(b) ==>
              var found := NextFrame(b, MAX_FRAME_SIZE);
              Meaning(FrontFrame(b)) == Ok(found.frame) && found.size == (if b[0] == 0 then 8 else 4) + BodyLength(b)
  {
  }

  /** The agent reads a frame exactly when the gateway's scanner finds one, the same one, and leaves
      the stream right behind it. */
  method ReadFrame(r: Reader) returns (f: Result<RawFrame, WireError>)
    modifies r
    ensures f.Ok? <==> NextFrame(old(r.rest), MAX_FRAME_SIZE).Ready?
    ensures f.Ok? ==> var found := NextFrame(old(r.rest), MAX_FRAME_SIZE);
                      Meaning(f.value) == Ok(found.frame) && f.value.header.bodyLen == |f.value.body|
                      && r.rest == old(r.rest)[found.size..]
    ensures f.Err? ==>
              var b := old(r.rest);
              match f.error
              case Truncated => |b| < 4 || |b| < (if b[0] == 0 then 8 else 4) + BodyLength(b)
              case ReservedBits => |b| >= 4 && (b[1] >= 8 || (b[0] == 1 && b[1] / 2 % 2 == 1))
              case UnknownType => |b| >= 4 && b[0] > 1
              case UnknownDest => |b| >= 8 && b[0] == 0 && b[4] > 3
              case UnknownResponse => |b| >= 8 && b[0] == 0 && b[5] > 1
              case OversizedBody => false
  {
    hide NextFrame, Meaning;
    ghost var all := r.rest;
    ReadableIsReady(all);
    var prefix := r.ReadFull(4);
    if prefix.Err? {
      return Err(prefix.error);
    }
    var p := prefix.value;
    var bodyLen: U16 := (p[2] as int) * 256 + p[3] as int;
    if BadFlags(p[0], p[1]) {
      return Err(ReservedBits);
    }
    var h := RawHeader(p[0], p[1], bodyLen, 0, 0, 0, 0);
    if p[0] == 0 {
      var suffix := r.ReadFull(4);
      if suffix.Err? {
        return Err(suffix.error);
      }
      var q := suffix.value;
      if DecodeDest(q[0]).Err? {
        return Err(UnknownDest);
      }
      if DecodeResponse(q[1]).Err? {
        return Err(UnknownResponse);
      }
      h := h.(dest := q[0], response := q[1], group := q[2], routeKey := q[3]);
    } else if p[0] != 1 {
      return Err(UnknownType);
    }
    var body := r.ReadFull(bodyLen);
    if body.Err? {
      return Err(body.error);
    }
    ghost var size := if p[0] == 0 then 8 else 4;
    assert body.value == all[size..size + bodyLen] && r.rest == all[size + bodyLen..];
    assert RawFrame(h, body.value) == FrontFrame(all);
    return Ok(RawFrame(h, body.value));
  }

  /** Whatever the agent manages to write, the gateway scans back as the same frame, and the agent can
      write anything the gateway's scanner lets through, byte for byte. */
  lemma {:induction false} AgentAndGatewayAgree(f: RawFrame, tail: seq<Byte>, stream: seq<Byte>)
    ensures Meaning(f).Ok? ==>
              var frame := Meaning(f).value;
              NextFrame(FrameBytes(frame) + tail, MAX_FRAME_SIZE) == Ready(frame, |FrameBytes(frame)|)
    ensures NextFrame(stream, MAX_FRAME_SIZE).Ready? ==>
              var found := NextFrame(stream, MAX_FRAME_SIZE);
              Meaning(Raw(found.frame)) == Ok(found.frame) && FrameBytes(found.frame) == stream[..found.size]
  {
    if Meaning(f).Ok? {
      MeaningBytes(f);
      EncodedComesOut(Meaning(f).value, tail, MAX_FRAME_SIZE);
    }
    if NextFrame(stream, MAX_FRAME_SIZE).Ready? {
      ReadyIsThePrefix(stream, MAX_FRAME_SIZE);
      RawMeans(NextFrame(stream, MAX_FRAME_SIZE).frame);
    }
    hide NextFrame, FrameBytes, Meaning, Raw;
  }

  function Raw(f: Frame): RawFrame {
    var h := f.header;
    match h
    case Open(flags, n, dest, response, group, routeKey) =>
      RawFrame(RawHeader(0, FlagsByte(flags), n, DestByte(dest), ResponseByte(response), group, routeKey), f.body)
    case Data(flags, n) => RawFrame(RawHeader(1, FlagsByte(flags), n, 0, 0, 0, 0), f.body)
  }

  lemma RawMeans(f: Frame)
    requires Encodable(f)
    ensures Meaning(Raw(f)) == Ok(f)
  {
    FlagsRoundTrip(f.header.flags, 0);
  }
}
