/** Frame headers: a type byte, flags, a 16-bit body length, and for OPEN the destination. */
module FrameHeaders {
  import opened Options
  import opened BigEndian

  const OPEN_HEADER_SIZE: nat := 8
  const DATA_HEADER_SIZE: nat := 4
  const MAX_BODY_SIZE: nat := 0xFFFF
  const MAX_FRAME_SIZE: nat := OPEN_HEADER_SIZE + MAX_BODY_SIZE

  datatype FrameError =
    | BufferTooSmall | UnknownFrameType | UnknownDestKind | UnknownResponseMode | ReservedBitsSet
    | DatagramOnStream | BodyTooLarge | FrameTooLarge

  datatype DestKind = Gateway | Service | Peer | Multicast
  datatype ResponseMode = Required | NoResponse
  datatype Flags = Flags(eof: bool, report: bool, unreliable: bool)

  datatype Header =
    | Open(flags: Flags, bodyLen: U16, dest: DestKind, response: ResponseMode, group: Byte, routeKey: Byte)
    | Data(flags: Flags, bodyLen: U16)
  {
    function Size(): nat {
      if Open? then OPEN_HEADER_SIZE else DATA_HEADER_SIZE
    }

    function FrameSize(): nat {
      Size() + bodyLen
    }

    /** DATA cannot ask for a delivery report. */
    predicate Valid() {
      Data? ==> !flags.report
    }
  }

  function FlagsByte(f: Flags): Byte {
    (if f.eof then 1 else 0) + (if f.report then 2 else 0) + (if f.unreliable then 4 else 0)
  }

  function DecodeFlags(b: Byte): Result<Flags, FrameError> {
    if b / 8 != 0 then Err(ReservedBitsSet)
    else Ok(Flags(b % 2 == 1, b / 2 % 2 == 1, b / 4 % 2 == 1))
  }

  function DestByte(d: DestKind): Byte {
    match d case Gateway => 0 case Service => 1 case Peer => 2 case Multicast => 3
  }

  function DecodeDest(b: Byte): Result<DestKind, FrameError> {
    if b == 0 then Ok(Gateway) else if b == 1 then Ok(Service) else if b == 2 then Ok(Peer)
    else if b == 3 then Ok(Multicast) else Err(UnknownDestKind)
  }

  function ResponseByte(r: ResponseMode): Byte {
    if r == Required then 0 else 1
  }

  function DecodeResponse(b: Byte): Result<ResponseMode, FrameError> {
    if b == 0 then Ok(Required) else if b == 1 then Ok(NoResponse) else Err(UnknownResponseMode)
  }

  /** The header length a type byte announces. */
  function HeaderSize(typeByte: Byte): Result<nat, FrameError> {
    if typeByte == 0 then Ok(OPEN_HEADER_SIZE)
    else if typeByte == 1 then Ok(DATA_HEADER_SIZE)
    else if typeByte == 2 then Err(DatagramOnStream)
    else Err(UnknownFrameType)
  }

  function HeaderBytes(h: Header): (b: seq<Byte>)
    ensures |b| == h.Size()
  {
    var common := [if h.Open? then 0 else 1, FlagsByte(h.flags), h.bodyLen / 256, h.bodyLen % 256];
    if h.Open? then common + [DestByte(h.dest), ResponseByte(h.response), h.group, h.routeKey] else common
  }

  function DecodeHeader(b: seq<Byte>): Result<Header, FrameError> {
    if |b| < 1 then Err(BufferTooSmall)
    else match HeaderSize(b[0])
      case Err(e) => Err(e)
      case Ok(size) =>
        if |b| < size then Err(BufferTooSmall)
        else match DecodeFlags(b[1])
          case Err(e) => Err(e)
          case Ok(flags) =>
            if b[0] == 1 && flags.report then Err(ReservedBitsSet)
            else
              var bodyLen: U16 := (b[2] as int) * 256 + b[3] as int;
              if b[0] == 1 then Ok(Data(flags, bodyLen))
              else match DecodeDest(b[4])
                case Err(e) => Err(e)
                case Ok(dest) =>
                  match DecodeResponse(b[5])
                  case Err(e) => Err(e)
                  case Ok(response) => Ok(Open(flags, bodyLen, dest, response, b[6], b[7]))
  }

  lemma FlagsRoundTrip(f: Flags, b: Byte)
    ensures DecodeFlags(FlagsByte(f)) == Ok(f)
    ensures DecodeFlags(b).Ok? ==> FlagsByte(DecodeFlags(b).value) == b
  {
  }

  /** Headers decode to what was encoded, whatever follows them. */
  lemma HeaderRoundTrip(h: Header, tail: seq<Byte>)
    requires h.Valid()
    ensures DecodeHeader(HeaderBytes(h) + tail) == Ok(h)
    ensures HeaderSize((HeaderBytes(h) + tail)[0]) == Ok(h.Size())
  {
    FlagsRoundTrip(h.flags, 0);
    hide FlagsByte, DecodeFlags;
  }

  /** Every header that decodes is the encoding of its fields: the format is canonical. */
  lemma HeaderIsCanonical(b: seq<Byte>)
    requires DecodeHeader(b).Ok?
    ensures var h := DecodeHeader(b).value;
            h.Valid() && HeaderSize(b[0]) == Ok(h.Size()) && h.Size() <= |b| && b[..h.Size()] == HeaderBytes(h)
  {
    FlagsRoundTrip(Flags(false, false, false), b[1]);
    hide FlagsByte, DecodeFlags;
  }
}

/** The in-place scanner and what repeated scanning of a byte string yields. */
module FrameScanning {
  import opened Options
  import opened BigEndian
  import opened FrameHeaders

  datatype Frame = Frame(header: Header, body: seq<Byte>)

  datatype Next = NeedMore | Broken(error: FrameError) | Ready(frame: Frame, size: nat)

  function FrameBytes(f: Frame): seq<Byte> {
    HeaderBytes(f.header) + f.body
  }

  predicate Encodable(f: Frame) {
    f.header.Valid() && |f.body| == f.header.bodyLen
  }

  /** One step of the scanner on what is left of its input. */
  function NextFrame(rest: seq<Byte>, maxFrame: nat): (r: Next)
    ensures r.Ready? ==> 0 < r.size <= |rest|
  {
    if rest == [] then NeedMore
    else match HeaderSize(rest[0])
      case Err(e) => Broken(e)
      case Ok(size) =>
        if |rest| < size then NeedMore
        else match DecodeHeader(rest[..size])
          case Err(e) => Broken(e)
          case Ok(h) =>
            var total := h.FrameSize();
            HeaderIsCanonical(rest[..size]);
            if total > maxFrame then Broken(FrameTooLarge)
            else if |rest| < total then NeedMore
            else Ready(Frame(h, rest[size..total]), total)
  }

  /** More bytes never change a verdict already reached. */
  lemma NextIsStable(rest: seq<Byte>, x: seq<Byte>, maxFrame: nat)
    requires !NextFrame(rest, maxFrame).NeedMore?
    ensures NextFrame(rest + x, maxFrame) == NextFrame(rest, maxFrame)
  {
    hide DecodeHeader;
    var size := HeaderSize(rest[0]);
    if size.Ok? {
      assert (rest + x)[..size.value] == rest[..size.value];
      var h := DecodeHeader(rest[..size.value]);
      if h.Ok? {
        HeaderIsCanonical(rest[..size.value]);
      }
      if h.Ok? && NextFrame(rest, maxFrame).Ready? {
        var total := h.value.FrameSize();
        assert (rest + x)[size.value..total] == rest[size.value..total];
      }
    }
  }

  /** A frame that came out is, byte for byte, the front of the input. */
  lemma ReadyIsThePrefix(rest: seq<Byte>, maxFrame: nat)
    requires NextFrame(rest, maxFrame).Ready?
    ensures var r := NextFrame(rest, maxFrame);
            Encodable(r.frame) && rest[..r.size] == FrameBytes(r.frame) && r.size == |FrameBytes(r.frame)| <= maxFrame
  {
    hide DecodeHeader, HeaderBytes;
    var size := HeaderSize(rest[0]).value;
    HeaderIsCanonical(rest[..size]);
    var h := DecodeHeader(rest[..size]).value;
    assert rest[..size][..h.Size()] == rest[..size];
    assert rest[..h.FrameSize()] == rest[..size] + rest[size..h.FrameSize()];
  }

  /** An encoded frame at the front of the input comes out. */
  lemma EncodedComesOut(f: Frame, x: seq<Byte>, maxFrame: nat)
    requires Encodable(f) && |FrameBytes(f)| <= maxFrame
    ensures NextFrame(FrameBytes(f) + x, maxFrame) == Ready(f, |FrameBytes(f)|)
  {
    var b := FrameBytes(f) + x;
    HeaderRoundTrip(f.header, f.body + x);
    HeaderRoundTrip(f.header, []);
    assert b == HeaderBytes(f.header) + (f.body + x);
    hide DecodeHeader, HeaderBytes;
    var size := f.header.Size();
    assert b[..size] == HeaderBytes(f.header) + [];
    assert b[size..f.header.FrameSize()] == f.body;
  }

  /** A DATA frame that asks for a report is refused on sight, whatever follows it: the bit is reserved. */
  lemma ReportingDataIsBroken(flags: Flags, body: seq<Byte>, x: seq<Byte>, maxFrame: nat)
    requires |body| < 0x1_0000 && flags.report
    ensures NextFrame(FrameBytes(Frame(Data(flags, |body|), body)) + x, maxFrame) == Broken(ReservedBitsSet)
  {
    var h := Data(flags, |body|);
    var b := FrameBytes(Frame(h, body)) + x;
    assert b[..DATA_HEADER_SIZE] == HeaderBytes(h);
    FlagsRoundTrip(flags, 0);
    hide FlagsByte, DecodeFlags;
  }

  /** What is held back for lack of bytes is shorter than one maximal frame. */
  lemma HeldBackIsShort(rest: seq<Byte>, maxFrame: nat)
    requires NextFrame(rest, maxFrame).NeedMore?
    ensures |rest| < if maxFrame < OPEN_HEADER_SIZE then OPEN_HEADER_SIZE else maxFrame
  {
    hide DecodeHeader;
  }

  /** What the body length field of a header says. */
  function BodyLength(rest: seq<Byte>): nat
    requires |rest| >= 4
  {
    256 * (rest[2] as int) + rest[3]
  }

  /** Why the scanner stops, byte by byte: a violation is what the header shows, looked at in this order, and
      bytes are missing only while a well-formed header or its body is incomplete. */
  lemma ViolationIsInTheHeader(rest: seq<Byte>, maxFrame: nat)
    requires !NextFrame(rest, maxFrame).Ready?
    ensures var size := if rest != [] && rest[0] == 0 then 8 else 4;
            match NextFrame(rest, maxFrame)
            case NeedMore => rest == [] || (rest[0] <= 1 && (|rest| < size || |rest| < size + BodyLength(rest) <= maxFrame))
            case Broken(e) =>
              && rest != []
              && if rest[0] >= 2 then e == (if rest[0] == 2 then DatagramOnStream else UnknownFrameType)
                 else
                   && |rest| >= size
                   && e == (if rest[1] >= 8 || (rest[0] == 1 && rest[1] / 2 % 2 == 1) then ReservedBitsSet
                            else if rest[0] == 0 && rest[4] > 3 then UnknownDestKind
                            else if rest[0] == 0 && rest[5] > 1 then UnknownResponseMode
                            else FrameTooLarge)
                   && (e == FrameTooLarge ==> size + BodyLength(rest) > maxFrame)
  {
  }

  // ---- scanning to the end ----

  /** All whole frames in order, the bytes left over, and the violation that stopped the scan. */
  datatype Scan = Scan(frames: seq<Frame>, rest: seq<Byte>, error: Option<FrameError>)

  function ScanAll(data: seq<Byte>, maxFrame: nat): Scan
    decreases |data|
  {
    match NextFrame(data, maxFrame)
    case NeedMore => Scan([], data, None)
    case Broken(e) => Scan([], data, Some(e))
    case Ready(f, size) =>
      var later := ScanAll(data[size..], maxFrame);
      later.(frames := [f] + later.frames)
  }

  /** One unfolding of the scan, by the verdict on its first frame. */
  lemma ScanStep(data: seq<Byte>, maxFrame: nat)
    ensures NextFrame(data, maxFrame).NeedMore? ==> ScanAll(data, maxFrame) == Scan([], data, None)
    ensures NextFrame(data, maxFrame).Broken? ==>
              ScanAll(data, maxFrame) == Scan([], data, Some(NextFrame(data, maxFrame).error))
    ensures NextFrame(data, maxFrame).Ready? ==>
              var later := ScanAll(data[NextFrame(data, maxFrame).size..], maxFrame);
              ScanAll(data, maxFrame) == later.(frames := [NextFrame(data, maxFrame).frame] + later.frames)
  {
    hide NextFrame;
  }

  /** Continue a scan with more bytes; a broken stream stays broken. */
  function Resume(s: Scan, more: seq<Byte>, maxFrame: nat): Scan {
    if s.error.Some? then s.(rest := s.rest + more)
    else
      var later := ScanAll(s.rest + more, maxFrame);
      later.(frames := s.frames + later.frames)
  }

  /** Chunk independence: scanning two pieces joined is scanning the first and then its remainder
      with the second, with the same violation at the same frame. */
  lemma {:induction false} ScanIsChunkIndependent(a: seq<Byte>, b: seq<Byte>, maxFrame: nat)
    ensures ScanAll(a + b, maxFrame) == Resume(ScanAll(a, maxFrame), b, maxFrame)
    decreases |a|
  {
    hide NextFrame;
    match NextFrame(a, maxFrame)
    case NeedMore =>
      assert [] + ScanAll(a + b, maxFrame).frames == ScanAll(a + b, maxFrame).frames;
    case Broken(e) => NextIsStable(a, b, maxFrame);
    case Ready(f, size) =>
      NextIsStable(a, b, maxFrame);
      assert (a + b)[size..] == a[size..] + b;
      var first := ScanAll(a[size..], maxFrame);
      ScanIsChunkIndependent(a[size..], b, maxFrame);
      ResumeAfterFrame(f, first, b, maxFrame);
      hide Resume;
  }

  lemma ResumeAfterFrame(f: Frame, s: Scan, b: seq<Byte>, maxFrame: nat)
    ensures Resume(s.(frames := [f] + s.frames), b, maxFrame)
         == Resume(s, b, maxFrame).(frames := [f] + Resume(s, b, maxFrame).frames)
  {
    hide ScanAll;
    if s.error.None? {
      assert ([f] + s.frames) + ScanAll(s.rest + b, maxFrame).frames == [f] + (s.frames + ScanAll(s.rest + b, maxFrame).frames);
    }
  }

  function Concat(chunks: seq<seq<Byte>>): seq<Byte> {
    if chunks == [] then [] else chunks[0] + Concat(chunks[1..])
  }

  /** Feeding chunks one by one, carrying the remainder. */
  function Feed(s: Scan, chunks: seq<seq<Byte>>, maxFrame: nat): Scan
    decreases |chunks|
  {
    if chunks == [] then s else Feed(Resume(s, chunks[0], maxFrame), chunks[1..], maxFrame)
  }

  lemma {:induction false} FeedIsScan(prefix: seq<Byte>, chunks: seq<seq<Byte>>, maxFrame: nat)
    ensures Feed(ScanAll(prefix, maxFrame), chunks, maxFrame) == ScanAll(prefix + Concat(chunks), maxFrame)
    decreases |chunks|
  {
    hide ScanAll, Resume;
    if chunks == [] {
      assert prefix + [] == prefix;
    } else {
      ScanIsChunkIndependent(prefix, chunks[0], maxFrame);
      FeedIsScan(prefix + chunks[0], chunks[1..], maxFrame);
      assert prefix + chunks[0] + Concat(chunks[1..]) == prefix + Concat(chunks);
    }
  }

  function EncodeAll(frames: seq<Frame>): seq<Byte> {
    if frames == [] then [] else FrameBytes(frames[0]) + EncodeAll(frames[1..])
  }

  lemma {:induction false} ScanOfEncode(frames: seq<Frame>, maxFrame: nat)
    requires forall i :: 0 <= i < |frames| ==> Encodable(frames[i]) && |FrameBytes(frames[i])| <= maxFrame
    ensures ScanAll(EncodeAll(frames), maxFrame) == Scan(frames, [], None)
  {
    if frames != [] {
      hide NextFrame, FrameBytes, Encodable;
      var tail := EncodeAll(frames[1..]);
      EncodedComesOut(frames[0], tail, maxFrame);
      assert (FrameBytes(frames[0]) + tail)[|FrameBytes(frames[0])|..] == tail;
      ScanOfEncode(frames[1..], maxFrame);
      assert [frames[0]] + frames[1..] == frames;
    }
  }

  /** Encoding any list of frames and delivering the bytes in any chunks gives back that list. */
  lemma AnyChunkingGivesTheFrames(frames: seq<Frame>, chunks: seq<seq<Byte>>, maxFrame: nat)
    requires forall i :: 0 <= i < |frames| ==> Encodable(frames[i]) && |FrameBytes(frames[i])| <= maxFrame
    requires Concat(chunks) == EncodeAll(frames)
    ensures Feed(ScanAll([], maxFrame), chunks, maxFrame) == Scan(frames, [], None)
  {
    FeedIsScan([], chunks, maxFrame);
    assert [] + Concat(chunks) == Concat(chunks);
    ScanOfEncode(frames, maxFrame);
  }

  lemma CoverStep(data: seq<Byte>, size: nat, f: Frame, frames: seq<Frame>, rest: seq<Byte>)
    requires size <= |data| && data[..size] == FrameBytes(f) && EncodeAll(frames) + rest == data[size..]
    ensures EncodeAll([f] + frames) + rest == data
  {
    hide FrameBytes;
    assert ([f] + frames)[1..] == frames;
    assert data == data[..size] + data[size..];
  }

  /** Nothing is lost or invented: the frames and the remainder are the input. */
  lemma {:induction false} ScanCoversTheInput(data: seq<Byte>, maxFrame: nat)
    ensures EncodeAll(ScanAll(data, maxFrame).frames) + ScanAll(data, maxFrame).rest == data
    decreases |data|
  {
    hide NextFrame, FrameBytes, Encodable;
    match NextFrame(data, maxFrame)
    case NeedMore =>
    case Broken(e) =>
    case Ready(f, size) =>
      ReadyIsThePrefix(data, maxFrame);
      ScanCoversTheInput(data[size..], maxFrame);
      var later := ScanAll(data[size..], maxFrame);
      CoverStep(data, size, f, later.frames, later.rest);
      hide EncodeAll;
  }

  /** A scan stops for the reason it gives, and every frame it gives is whole and within the limit. */
  lemma {:induction false} ScanStopsForItsReason(data: seq<Byte>, maxFrame: nat)
    ensures var s := ScanAll(data, maxFrame);
            && (forall i :: 0 <= i < |s.frames| ==> Encodable(s.frames[i]) && |FrameBytes(s.frames[i])| <= maxFrame)
            && NextFrame(s.rest, maxFrame) == if s.error.None? then NeedMore else Broken(s.error.value)
    decreases |data|
  {
    hide NextFrame, FrameBytes, Encodable;
    if NextFrame(data, maxFrame).Ready? {
      ReadyIsThePrefix(data, maxFrame);
      ScanStopsForItsReason(data[NextFrame(data, maxFrame).size..], maxFrame);
    }
  }

  /** An unbroken scan carries over less than one maximal frame. */
  lemma RemainderIsShort(data: seq<Byte>, maxFrame: nat)
    requires ScanAll(data, maxFrame).error.None?
    ensures |ScanAll(data, maxFrame).rest| < if maxFrame < OPEN_HEADER_SIZE then OPEN_HEADER_SIZE else maxFrame
  {
    ScanStopsForItsReason(data, maxFrame);
    HeldBackIsShort(ScanAll(data, maxFrame).rest, maxFrame);
    hide NextFrame, ScanAll;
  }
}

/** The encoder into a caller's buffer and the scanner over a caller's slice. */
module FrameCodec {
  import opened Options
  import opened BigEndian
  import opened FrameHeaders
  import opened FrameScanning

  class FrameEncoder {
    const buf: array<Byte>

    constructor (buf: array<Byte>)
      ensures this.buf == buf
    {
      this.buf := buf;
    }

    method EncodeOpen(dest: DestKind, group: Byte, routeKey: Byte, response: ResponseMode, flags: Flags, body: seq<Byte>)
      returns (r: Result<nat, FrameError>)
      modifies buf
      ensures |body| > MAX_BODY_SIZE ==> r == Err(BodyTooLarge) && buf[..] == old(buf[..])
      ensures |body| <= MAX_BODY_SIZE ==>
                var f := Frame(Open(flags, |body|, dest, response, group, routeKey), body);
                && Encodable(f)
                && r == (if buf.Length < |FrameBytes(f)| then Err(BufferTooSmall) else Ok(|FrameBytes(f)|))
                && (r.Ok? ==> buf[..r.value] == FrameBytes(f) && buf[r.value..] == old(buf[r.value..]))
    {
      if |body| > MAX_BODY_SIZE {
        return Err(BodyTooLarge);
      }
      r := Write(Open(flags, |body|, dest, response, group, routeKey), body);
    }

    method EncodeData(flags: Flags, body: seq<Byte>) returns (r: Result<nat, FrameError>)
      modifies buf
      ensures |body| > MAX_BODY_SIZE ==> r == Err(BodyTooLarge) && buf[..] == old(buf[..])
      ensures |body| <= MAX_BODY_SIZE ==>
                var f := Frame(Data(flags, |body|), body);
                && (if flags.report then forall x, maxFrame :: NextFrame(FrameBytes(f) + x, maxFrame) == Broken(ReservedBitsSet)
                    else Encodable(f))
                && r == (if buf.Length < |FrameBytes(f)| then Err(BufferTooSmall) else Ok(|FrameBytes(f)|))
                && (r.Ok? ==> buf[..r.value] == FrameBytes(f) && buf[r.value..] == old(buf[r.value..]))
    {
      if |body| > MAX_BODY_SIZE {
        return Err(BodyTooLarge);
      }
      if flags.report {
        forall x, maxFrame ensures NextFrame(FrameBytes(Frame(Data(flags, |body|), body)) + x, maxFrame) == Broken(ReservedBitsSet) {
          ReportingDataIsBroken(flags, body, x, maxFrame);
        }
      }
      hide NextFrame, FrameBytes;
      r := Write(Data(flags, |body|), body);
    }

    /** Header first, then the body; a body that does not fit is noticed after the header is in. */
    method Write(header: Header, body: seq<Byte>) returns (r: Result<nat, FrameError>)
      requires |body| == header.bodyLen
      modifies buf
      ensures var b := FrameBytes(Frame(header, body));
              && r == (if buf.Length < |b| then Err(BufferTooSmall) else Ok(|b|))
              && (r.Ok? ==> buf[..|b|] == b && buf[|b|..] == old(buf[|b|..]))
    {
      hide HeaderBytes;
      var h := HeaderBytes(header);
      if buf.Length < |h| {
        return Err(BufferTooSmall);
      }
      forall k | 0 <= k < |h| {
        buf[k] := h[k];
      }
      var total := |h| + |body|;
      if buf.Length < total {
        return Err(BufferTooSmall);
      }
      forall k | 0 <= k < |body| {
        buf[|h| + k] := body[k];
      }
      assert buf[..total] == h + body;
      return Ok(total);
    }
  }

  /** What came out so far and what a full scan of the remainder gives make up the full scan. */
  ghost predicate Scanned(data: seq<Byte>, maxFrame: nat, offset: nat, frames: seq<Frame>) {
    && offset <= |data|
    && ScanAll(data, maxFrame) == ScanAll(data[offset..], maxFrame).(frames := frames + ScanAll(data[offset..], maxFrame).frames)
  }

  lemma Advance(data: seq<Byte>, maxFrame: nat, offset: nat, frames: seq<Frame>, f: Frame, size: nat)
    requires Scanned(data, maxFrame, offset, frames) && NextFrame(data[offset..], maxFrame) == Ready(f, size)
    ensures Scanned(data, maxFrame, offset + size, frames + [f])
  {
    ScanStep(data[offset..], maxFrame);
    hide ScanAll, NextFrame;
    assert data[offset..][size..] == data[offset + size..];
    var later := ScanAll(data[offset + size..], maxFrame);
    assert (frames + [f]) + later.frames == frames + ([f] + later.frames);
  }

  lemma ScannedFits(data: seq<Byte>, maxFrame: nat, offset: nat, frames: seq<Frame>)
    requires Scanned(data, maxFrame, offset, frames)
    ensures offset <= |data|
  {
  }

  lemma Stops(data: seq<Byte>, maxFrame: nat, offset: nat, frames: seq<Frame>)
    requires Scanned(data, maxFrame, offset, frames)
    ensures NextFrame(data[offset..], maxFrame).NeedMore? ==> ScanAll(data, maxFrame) == Scan(frames, data[offset..], None)
    ensures NextFrame(data[offset..], maxFrame).Broken? ==>
              ScanAll(data, maxFrame) == Scan(frames, data[offset..], Some(NextFrame(data[offset..], maxFrame).error))
  {
    ScanStep(data[offset..], maxFrame);
    hide ScanAll, NextFrame;
    assert frames + [] == frames;
  }

  /** Frame by frame over one slice; the offset moves only past whole frames. */
  class FrameScanner {
    const data: seq<Byte>
    const maxFrame: nat
    var offset: nat
    ghost var frames: seq<Frame>

    ghost predicate Valid()
      reads this
    {
      Scanned(data, maxFrame, offset, frames)
    }

    constructor (data: seq<Byte>, maxFrame: nat)
      ensures Valid() && offset == 0 && frames == [] && this.data == data && this.maxFrame == maxFrame
    {
      this.data, this.maxFrame, offset, frames := data, maxFrame, 0, [];
      new;
      assert data[0..] == data;
    }

    /** What stands at the offset. The type byte settles the header length, the header the frame's. */
    method Look() returns (r: Next)
      requires offset <= |data|
      ensures r == NextFrame(data[offset..], maxFrame)
    {
      hide DecodeHeader, HeaderBytes;
      var rest := data[offset..];
      if rest == [] {
        return NeedMore;
      }
      var size := HeaderSize(rest[0]);
      if size.Err? {
        return Broken(size.error);
      }
      if |rest| < size.value {
        return NeedMore;
      }
      var header := DecodeHeader(rest[..size.value]);
      if header.Err? {
        return Broken(header.error);
      }
      var total := header.value.FrameSize();
      if total > maxFrame {
        return Broken(FrameTooLarge);
      }
      if |rest| < total {
        return NeedMore;
      }
      HeaderIsCanonical(rest[..size.value]);
      return Ready(Frame(header.value, rest[size.value..total]), total);
    }

    /** The next whole frame, None when bytes are missing, or the violation. */
    method Next() returns (r: Result<Option<Frame>, FrameError>)
      requires Valid()
      modifies this
      ensures Valid()
      ensures r.Ok? && r.value.Some? ==> frames == old(frames) + [r.value.value] && offset > old(offset)
      ensures !(r.Ok? && r.value.Some?) ==> offset == old(offset) && frames == old(frames)
      ensures r == Ok(None) ==> ScanAll(data, maxFrame) == Scan(frames, data[offset..], None)
      ensures r.Err? ==> ScanAll(data, maxFrame) == Scan(frames, data[offset..], Some(r.error))
    {
      hide ScanAll, NextFrame, Scanned;
      ScannedFits(data, maxFrame, offset, frames);
      var found := Look();
      Stops(data, maxFrame, offset, frames);
      match found {
        case NeedMore =>
          return Ok(None);
        case Broken(e) =>
          return Err(e);
        case Ready(f, size) =>
          Advance(data, maxFrame, offset, frames, f, size);
          offset := offset + size;
          frames := frames + [f];
          return Ok(Some(f));
      }
    }

    /** The bytes that do not make a whole frame yet. */
    method Remainder() returns (r: seq<Byte>)
      requires offset <= |data|
      ensures r == data[offset..]
    {
      r := data[offset..];
    }
  }
}
