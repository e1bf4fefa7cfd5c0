/** Upstream framing: whole frames are handed on, the partial one is carried to the next callback. */
module StreamFraming {
  import opened Options
  import opened BigEndian
  import opened FrameHeaders
  import opened FrameScanning
  import opened FrameCodec

  /** The handler's answer may depend on every frame it was ever given, the last one included. */
  type Handler = seq<Frame> -> bool

  /** All frames handed over once `frames` are offered in order to a handler that has seen `before`. */
  ghost function HandOver(before: seq<Frame>, frames: seq<Frame>, keep: Handler): seq<Frame>
    decreases |frames|
  {
    if frames == [] then before
    else if !keep(before + [frames[0]]) then before + [frames[0]]
    else HandOver(before + [frames[0]], frames[1..], keep)
  }

  ghost predicate TurnedDown(before: seq<Frame>, frames: seq<Frame>, keep: Handler)
    decreases |frames|
  {
    frames != [] && (keep(before + [frames[0]]) ==> TurnedDown(before + [frames[0]], frames[1..], keep))
  }

  /** The handler sees a prefix of the frames: all of them unless it turns one down, and then that one
      is the last it sees, everything before it having been accepted. */
  lemma {:induction false} HandOverStopsAtTheFirstRefusal(before: seq<Frame>, frames: seq<Frame>, keep: Handler)
    ensures var all := HandOver(before, frames, keep);
            && before <= all <= before + frames
            && (forall k :: |before| < k < |all| ==> keep(all[..k]))
            && (TurnedDown(before, frames, keep) ==> |all| > |before| && !keep(all))
            && (!TurnedDown(before, frames, keep) ==> all == before + frames && (frames != [] ==> keep(all)))
    decreases |frames|
  {
    if frames != [] {
      var first := before + [frames[0]];
      assert first + frames[1..] == before + frames;
      if keep(first) {
        HandOverStopsAtTheFirstRefusal(first, frames[1..], keep);
        var all := HandOver(before, frames, keep);
        assert all[..|first|] == first;
        assert frames[1..] == [] ==> all == first;
      }
    }
  }

  lemma HandOverStep(before: seq<Frame>, f: Frame, later: seq<Frame>, keep: Handler)
    ensures !keep(before + [f]) ==>
              HandOver(before, [f] + later, keep) == before + [f] && TurnedDown(before, [f] + later, keep)
    ensures keep(before + [f]) ==>
              && HandOver(before, [f] + later, keep) == HandOver(before + [f], later, keep)
              && TurnedDown(before, [f] + later, keep) == TurnedDown(before + [f], later, keep)
  {
    assert ([f] + later)[1..] == later;
  }

  /** Bytes carried over are short of a frame, whatever follows them; a violation among them stays. */
  lemma PendingGrows(base: seq<Byte>, data: seq<Byte>, maxFrame: nat)
    requires base != [] && !NextFrame(base, maxFrame).Ready?
    ensures NextFrame(base + data, maxFrame).Ready? ==> |base| < NextFrame(base + data, maxFrame).size
  {
    if NextFrame(base, maxFrame).Broken? {
      NextIsStable(base, data, maxFrame);
    } else if NextFrame(base + data, maxFrame).Ready? {
      hide DecodeHeader;
      var size := HeaderSize(base[0]).value;
      if |base| >= size {
        assert (base + data)[..size] == base[..size];
      }
    }
  }

  lemma PrefixOfJoined(base: seq<Byte>, data: seq<Byte>, n: nat)
    requires n <= |data|
    ensures base + data[..n] == (base + data)[..|base| + n]
    ensures n == |data| ==> base + data[..n] == base + data
  {
  }

  /** What a callback must leave behind when the bytes at hand scan to `s`. */
  ghost predicate Outcome(before: seq<Frame>, s: Scan, keep: Handler,
                          delivered: seq<Frame>, spill: seq<Byte>, r: Result<(), FrameError>) {
    && delivered == HandOver(before, s.frames, keep)
    && if TurnedDown(before, s.frames, keep) then r == Ok(()) && spill == []
       else match s.error
            case Some(e) => r == Err(e)
            case None => r == Ok(()) && spill == s.rest
  }

  /** Part way through: the frames `seen` were all accepted, the rest are still to be offered. */
  ghost predicate Pending(before: seq<Frame>, s: Scan, keep: Handler, seen: seq<Frame>, delivered: seq<Frame>) {
    && seen <= s.frames
    && HandOver(before, s.frames, keep) == HandOver(delivered, s.frames[|seen|..], keep)
    && TurnedDown(before, s.frames, keep) == TurnedDown(delivered, s.frames[|seen|..], keep)
  }

  lemma ScannedIsPrefix(data: seq<Byte>, maxFrame: nat, offset: nat, frames: seq<Frame>)
    requires Scanned(data, maxFrame, offset, frames)
    ensures frames <= ScanAll(data, maxFrame).frames
  {
    hide ScanAll;
  }

  lemma PendingStep(before: seq<Frame>, s: Scan, keep: Handler, seen: seq<Frame>, delivered: seq<Frame>, f: Frame)
    requires Pending(before, s, keep, seen, delivered) && seen + [f] <= s.frames
    ensures keep(delivered + [f]) ==> Pending(before, s, keep, seen + [f], delivered + [f])
    ensures !keep(delivered + [f]) ==> Outcome(before, s, keep, delivered + [f], [], Ok(()))
  {
    var later := s.frames[|seen| + 1..];
    assert s.frames[|seen|] == f;
    assert s.frames[|seen|..] == [f] + later;
    HandOverStep(delivered, f, later, keep);
    hide HandOver, TurnedDown;
  }

  lemma PendingEnds(before: seq<Frame>, s: Scan, keep: Handler, seen: seq<Frame>, delivered: seq<Frame>,
                    spill: seq<Byte>, r: Result<(), FrameError>)
    requires Pending(before, s, keep, seen, delivered) && s.frames == seen
    requires r == if s.error.None? then Ok(()) else Err(s.error.value)
    requires s.error.None? ==> spill == s.rest
    ensures Outcome(before, s, keep, delivered, spill, r)
  {
  }

  /** The scanner's verdict in the stages in which the bytes become known. */
  lemma NextByStages(all: seq<Byte>, maxFrame: nat)
    requires all != []
    ensures HeaderSize(all[0]).Err? ==> NextFrame(all, maxFrame) == Broken(HeaderSize(all[0]).error)
    ensures HeaderSize(all[0]).Ok? && |all| < HeaderSize(all[0]).value ==> NextFrame(all, maxFrame) == NeedMore
  {
    hide DecodeHeader;
  }

  lemma NextByHeader(all: seq<Byte>, size: nat, maxFrame: nat)
    requires all != [] && HeaderSize(all[0]) == Ok(size) && size <= |all|
    ensures DecodeHeader(all[..size]).Err? ==> NextFrame(all, maxFrame) == Broken(DecodeHeader(all[..size]).error)
    ensures DecodeHeader(all[..size]).Ok? ==>
              var h := DecodeHeader(all[..size]).value;
              var total := h.FrameSize();
              && h.Size() == size
              && NextFrame(all, maxFrame) == if total > maxFrame then Broken(FrameTooLarge)
                                             else if |all| < total then NeedMore
                                             else Ready(Frame(h, all[size..total]), total)
  {
    if DecodeHeader(all[..size]).Ok? {
      HeaderIsCanonical(all[..size]);
    }
    hide DecodeHeader, HeaderBytes;
  }

  /** The new bytes after all earlier ones scan as the carried bytes and the new ones do. */
  lemma WholeScan(input: seq<Byte>, data: seq<Byte>, delivered: seq<Frame>, spill: seq<Byte>, maxFrame: nat)
    requires ScanAll(input, maxFrame) == Scan(delivered, spill, None)
    ensures var whole := ScanAll(input + data, maxFrame);
            && delivered <= whole.frames
            && News(delivered, whole) == ScanAll(spill + data, maxFrame)
            && whole == News(delivered, whole).(frames := delivered + News(delivered, whole).frames)
  {
    ScanIsChunkIndependent(input, data, maxFrame);
    hide ScanAll;
  }

  /** The frames of a scan that come after those already handed over. */
  ghost function News(before: seq<Frame>, s: Scan): Scan
    requires before <= s.frames
  {
    s.(frames := s.frames[|before|..])
  }

  lemma NothingToHandOver(before: seq<Frame>, s: Scan, keep: Handler, spill: seq<Byte>, r: Result<(), FrameError>)
    requires s.frames == [] && r == if s.error.None? then Ok(()) else Err(s.error.value)
    requires s.error.None? ==> spill == s.rest
    ensures Outcome(before, s, keep, before, spill, r)
  {
  }

  lemma TurnedDownAtOnce(before: seq<Frame>, s: Scan, keep: Handler, f: Frame)
    requires s.frames != [] && s.frames[0] == f && !keep(before + [f])
    ensures Outcome(before, s, keep, before + [f], [], Ok(()))
  {
  }

  lemma AfterTheFirst(before: seq<Frame>, s: Scan, keep: Handler, f: Frame, later: Scan,
                      delivered: seq<Frame>, spill: seq<Byte>, r: Result<(), FrameError>)
    requires s == later.(frames := [f] + later.frames) && keep(before + [f])
    requires Outcome(before + [f], later, keep, delivered, spill, r)
    ensures Outcome(before, s, keep, delivered, spill, r)
  {
    HandOverStep(before, f, later.frames, keep);
    hide HandOver, TurnedDown;
  }

  lemma GoesOn(before: seq<Frame>, s: Scan, keep: Handler, delivered: seq<Frame>, spill: seq<Byte>, r: Result<(), FrameError>)
    requires Outcome(before, s, keep, delivered, spill, r) && r.Ok? && !TurnedDown(before, s.frames, keep)
    ensures s.error.None? && delivered == before + s.frames && spill == s.rest
  {
    HandOverStopsAtTheFirstRefusal(before, s.frames, keep);
  }

  datatype Completed = Completed(consumed: nat, header: Header)

  class StreamFramer {
    const maxFrame: nat
    var spill: seq<Byte>
    /** Everything the handler was given so far. */
    var delivered: seq<Frame>
    ghost var input: seq<Byte>

    /** A stream still being read: exactly the whole frames of its bytes were handed over, and the
        spill is what is left of them. */
    ghost predicate Valid()
      reads this
    {
      ScanAll(input, maxFrame) == Scan(delivered, spill, None)
    }

    constructor (maxFrame: nat)
      ensures Valid() && input == [] && delivered == [] && this.maxFrame == maxFrame
    {
      this.maxFrame, spill, input, delivered := maxFrame, [], [], [];
    }

    /** Carry on filling the spill from `data`, up to `want` bytes and no further. */
    method TopUp(data: seq<Byte>, ghost base: seq<Byte>, consumed: nat, want: nat) returns (now: nat)
      requires consumed <= |data| && spill == base + data[..consumed]
      modifies this`spill
      ensures consumed <= now <= |data| && spill == base + data[..now]
      ensures |spill| == if |old(spill)| >= want then |old(spill)| else Min(want, |base| + |data|)
    {
      now := consumed;
      if |spill| < want {
        var take := Min(want - |spill|, |data| - consumed);
        spill := spill + data[consumed..consumed + take];
        now := consumed + take;
        assert data[..consumed] + data[consumed..now] == data[..now];
      }
    }

    /** Top up the carried bytes: first to a whole header, then to exactly one whole frame. */
    method CompletePending(data: seq<Byte>) returns (r: Result<Option<Completed>, FrameError>)
      requires spill != [] && !NextFrame(spill, maxFrame).Ready?
      modifies this`spill
      ensures var all := old(spill) + data;
              match NextFrame(all, maxFrame)
              case NeedMore => r == Ok(None) && spill == all
              case Broken(e) => r == Err(e)
              case Ready(f, size) =>
                && |old(spill)| < size
                && r == Ok(Some(Completed(size - |old(spill)|, f.header)))
                && spill == all[..size] && f.header.Size() <= |spill| && spill[f.header.Size()..] == f.body
    {
      ghost var base, all := spill, spill + data;
      PendingGrows(base, data, maxFrame);
      NextByStages(all, maxFrame);
      hide *;
      var size := HeaderSize(spill[0]);
      if size.Err? {
        return Err(size.error);
      }
      var consumed := TopUp(data, base, 0, size.value);
      PrefixOfJoined(base, data, consumed);
      if |spill| < size.value {
        return Ok(None);
      }
      NextByHeader(all, size.value, maxFrame);
      assert spill[..size.value] == all[..size.value];
      var header := DecodeHeader(spill[..size.value]);
      if header.Err? {
        return Err(header.error);
      }
      var total := header.value.FrameSize();
      if total > maxFrame {
        return Err(FrameTooLarge);
      }
      consumed := TopUp(data, base, consumed, total);
      PrefixOfJoined(base, data, consumed);
      if |spill| < total {
        return Ok(None);
      }
      assert spill[size.value..] == all[size.value..total];
      return Ok(Some(Completed(consumed, header.value)));
    }

    /** Whole frames are taken straight from the callback's slice; only the tail is carried over. */
    method ScanInPlace(rest: seq<Byte>, keep: Handler) returns (r: Result<(), FrameError>)
      requires spill == []
      modifies this`spill, this`delivered
      ensures Outcome(old(delivered), ScanAll(rest, maxFrame), keep, delivered, spill, r)
    {
      ghost var before, whole := delivered, ScanAll(rest, maxFrame);
      var scanner := new FrameScanner(rest, maxFrame);
      while true
        invariant fresh(scanner) && scanner.data == rest && scanner.maxFrame == maxFrame
        invariant scanner.Valid() && spill == []
        invariant Pending(before, whole, keep, scanner.frames, delivered)
        decreases |rest| - scanner.offset
      {
        hide *;
        ghost var seen := scanner.frames;
        var next := scanner.Next();
        if next.Err? {
          PendingEnds(before, whole, keep, scanner.frames, delivered, spill, Err(next.error));
          return Err(next.error);
        }
        if next.value.None? {
          break;
        }
        var f := next.value.value;
        ScannedIsPrefix(rest, maxFrame, scanner.offset, scanner.frames);
        PendingStep(before, whole, keep, seen, delivered, f);
        delivered := delivered + [f];
        if !keep(delivered) {
          return Ok(());
        }
      }
      var leftover := scanner.Remainder();
      spill := spill + leftover;
      PendingEnds(before, whole, keep, scanner.frames, delivered, spill, Ok(()));
      return Ok(());
    }

    /** One callback. The handler gets exactly the frames that the bytes so far complete, in order,
        until it turns one down; then nothing more is kept. Otherwise the stream goes on, or breaks
        with the violation a scan of all its bytes has. */
    method Drain(data: seq<Byte>, keep: Handler) returns (r: Result<(), FrameError>)
      requires Valid()
      modifies this
      ensures input == old(input) + data && old(delivered) <= ScanAll(input, maxFrame).frames
      ensures Outcome(old(delivered), News(old(delivered), ScanAll(input, maxFrame)), keep, delivered, spill, r)
      ensures r.Ok? && !TurnedDown(old(delivered), News(old(delivered), ScanAll(input, maxFrame)).frames, keep) ==> Valid()
    {
      ghost var s := ScanAll(spill + data, maxFrame);
      WholeScan(input, data, delivered, spill, maxFrame);
      assert spill != [] ==> NextFrame(spill, maxFrame).NeedMore? by {
        ScanStopsForItsReason(input, maxFrame);
      }
      input := input + data;
      r := DrainFrom(data, keep);
      if r.Ok? && !TurnedDown(old(delivered), s.frames, keep) {
        GoesOn(old(delivered), s, keep, delivered, spill, r);
      }
    }

    method DrainFrom(data: seq<Byte>, keep: Handler) returns (r: Result<(), FrameError>)
      requires spill != [] ==> NextFrame(spill, maxFrame).NeedMore?
      modifies this`spill, this`delivered
      ensures Outcome(old(delivered), ScanAll(old(spill) + data, maxFrame), keep, delivered, spill, r)
    {
      ghost var before, all := delivered, spill + data;
      ghost var s := ScanAll(all, maxFrame);
      ScanStep(all, maxFrame);
      hide *;
      var rest := data;
      if spill != [] {
        var pending := CompletePending(data);
        if pending.Err? {
          NothingToHandOver(before, s, keep, spill, Err(pending.error));
          return Err(pending.error);
        }
        if pending.value.None? {
          NothingToHandOver(before, s, keep, spill, Ok(()));
          return Ok(());
        }
        var header := pending.value.value.header;
        var f := Frame(header, spill[header.Size()..]);
        rest := data[pending.value.value.consumed..];
        assert all[NextFrame(all, maxFrame).size..] == rest;
        delivered := delivered + [f];
        spill := [];
        if !keep(delivered) {
          TurnedDownAtOnce(before, s, keep, f);
          return Ok(());
        }
        r := ScanInPlace(rest, keep);
        AfterTheFirst(before, s, keep, f, ScanAll(rest, maxFrame), delivered, spill, r);
      } else {
        assert all == data;
        r := ScanInPlace(rest, keep);
      }
    }
  }
}
