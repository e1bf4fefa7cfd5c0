/** What one step of a direct transport can do to each connection and to the history. */
module DirectEffects {
  import opened Options
  import opened RealmQuota
  import opened Words
  import opened StreamHandles
  import opened SlotChains
  import ArenaModel
  import opened BackendConnections
  import opened DirectModel

  // ---- opening a stream ----

  /** All that trying to open a stream may do to a connection. */
  ghost predicate Touched(c: Conn, d: Conn) {
    && d.id == c.id && d.made == c.made && d.accepted == c.accepted && d.taken == c.taken && d.unreported == c.unreported
    && d.cnx == c.cnx && d.live == c.live && d.held == c.held && d.resolving == c.resolving
    && d.generation == c.generation && (if c.state == Ready then d.state == Ready || d.state == Backoff else d == c)
  }

  ghost predicate AllTouched(t: Transport, u: Transport) {
    |u.conns| == |t.conns| && u.closed == t.closed && forall i :: 0 <= i < |t.conns| ==> Touched(t.conns[i], u.conns[i])
  }

  lemma FailedOnTouches(t: Transport, ci: nat, w: WriteOutcome, now: nat)
    requires ci < |t.conns| && t.conns[ci].state == Ready && t.conns[ci].nextStream < STREAM_IDS
    ensures AllTouched(t, FailedOn(t, ci, w, now)) && FailedOn(t, ci, w, now).conns[ci].state == Backoff
    ensures CanOpen(t) ==> CanOpen(FailedOn(t, ci, w, now))
  {
    hide Delay, MakeHandle, KeyQueued;
  }

  lemma TouchedTwice(t: Transport, u: Transport, v: Transport)
    requires AllTouched(t, u) && AllTouched(u, v)
    ensures AllTouched(t, v)
  {
    forall i | 0 <= i < |t.conns| ensures Touched(t.conns[i], v.conns[i]) {
      assert Touched(t.conns[i], u.conns[i]) && Touched(u.conns[i], v.conns[i]);
    }
  }

  lemma {:induction false} TryOnlyTouches(t: Transport, cursor: nat, offset: nat, w: seq<WriteOutcome>, now: nat, last: TransportError)
    requires t.conns != [] && CanOpen(t)
    ensures AllTouched(t, TryFrom(t, cursor, offset, w, now, last).0)
    decreases |t.conns| - offset
  {
    hide MakeHandle, FailedOn;
    if offset < |t.conns| {
      var ci := Turn(|t.conns|, cursor, offset);
      if t.conns[ci].state != Ready {
        TryOnlyTouches(t, cursor, offset + 1, w, now, last);
      } else {
        match SendOn(t.conns[ci], None, OutcomeAt(w, ci)).1
        case Ok(h) =>
        case Err(e) =>
          FailedOnTouches(t, ci, OutcomeAt(w, ci), now);
          var v := FailedOn(t, ci, OutcomeAt(w, ci), now);
          TryOnlyTouches(v, cursor, offset + 1, w, now, e);
          TouchedTwice(t, v, TryFrom(v, cursor, offset + 1, w, now, e).0);
      }
    }
  }

  /** `u` has one more stream than `t`: opened on connection `ci` as `t` has it, over its QUIC connection and
      with its next number. */
  ghost predicate OpenedOver(t: Transport, u: Transport, ci: nat) {
    && ci < |t.conns| && t.conns[ci].state == Ready && t.conns[ci].cnx.Some?
    && |u.streams| == |t.streams| + 1 && u.streams == t.streams + [u.streams[|t.streams|]]
    && var o := u.streams[|t.streams|];
    && o.id == t.conns[ci].id && o.epoch == |t.conns[ci].made| && o.via == t.conns[ci].cnx
    && ci < |u.conns| && u.conns[ci].state == Ready
    && o.stream == t.conns[ci].nextStream && u.conns[ci].nextStream == o.stream + 4
  }

  /** At most one stream was opened, and a connection still ready used a stream number only for that. */
  ghost predicate OpensAtMostOne(t: Transport, u: Transport) {
    && u.blamed == t.blamed && |u.conns| == |t.conns|
    && (u.streams == t.streams || exists ci: nat :: OpenedOver(t, u, ci))
    && forall i :: 0 <= i < |t.conns| && u.conns[i].state == Ready ==>
         u.conns[i].nextStream == t.conns[i].nextStream || OpenedOver(t, u, i)
  }

  /** Whoever is still ready has its numbering as it was, and no lookup was issued or answered. */
  ghost predicate KeepsNumbers(c: Conn, d: Conn) {
    (d.state == Ready ==> d.nextStream == c.nextStream) && d.held == c.held && d.resolving == c.resolving
  }

  lemma OpenedAfterTouching(t: Transport, v: Transport, u: Transport)
    requires AllTouched(t, v) && v.streams == t.streams && v.blamed == t.blamed && OpensAtMostOne(v, u) && AllTouched(v, u)
    requires forall i :: 0 <= i < |t.conns| ==> KeepsNumbers(t.conns[i], v.conns[i])
    ensures OpensAtMostOne(t, u)
  {
    forall i | 0 <= i < |t.conns| && u.conns[i].state == Ready
      ensures u.conns[i].nextStream == t.conns[i].nextStream || OpenedOver(t, u, i)
    {
      assert Touched(t.conns[i], v.conns[i]) && Touched(v.conns[i], u.conns[i]) && KeepsNumbers(t.conns[i], v.conns[i]);
      if u.conns[i].nextStream != t.conns[i].nextStream {
        assert OpenedOver(v, u, i);
      }
    }
    if u.streams != t.streams {
      var ci: nat :| OpenedOver(v, u, ci);
      assert Touched(t.conns[ci], v.conns[ci]);
      assert OpenedOver(t, u, ci);
    }
  }

  lemma {:induction false} TryOpensAtMostOne(t: Transport, cursor: nat, offset: nat, w: seq<WriteOutcome>, now: nat, last: TransportError)
    requires t.conns != [] && CanOpen(t)
    ensures OpensAtMostOne(t, TryFrom(t, cursor, offset, w, now, last).0)
    decreases |t.conns| - offset
  {
    hide MakeHandle, AllTouched, OpensAtMostOne;
    var u := TryFrom(t, cursor, offset, w, now, last).0;
    if offset >= |t.conns| {
      NothingOpened(t);
    } else {
      var ci := Turn(|t.conns|, cursor, offset);
      if t.conns[ci].state != Ready {
        TryOpensAtMostOne(t, cursor, offset + 1, w, now, last);
      } else {
        match SendOn(t.conns[ci], None, OutcomeAt(w, ci)).1
        case Ok(h) => OneOpened(t, ci, OutcomeAt(w, ci), h);
        case Err(e) =>
          FailedOnTouches(t, ci, OutcomeAt(w, ci), now);
          FailingOpensNothing(t, ci, OutcomeAt(w, ci), now);
          var v := FailedOn(t, ci, OutcomeAt(w, ci), now);
          hide FailedOn;
          TryOpensAtMostOne(v, cursor, offset + 1, w, now, e);
          TryOnlyTouches(v, cursor, offset + 1, w, now, e);
          OpenedAfterTouching(t, v, u);
      }
    }
  }

  lemma NothingOpened(t: Transport)
    ensures OpensAtMostOne(t, t)
  {
  }

  lemma OneOpened(t: Transport, ci: nat, w: WriteOutcome, h: Word)
    requires ci < |t.conns| && t.conns[ci].state == Ready && t.conns[ci].nextStream < STREAM_IDS
    requires SendOn(t.conns[ci], None, w).1 == Ok(h)
    ensures OpensAtMostOne(t, OpenedOn(t, ci, w, h))
  {
    hide MakeHandle;
    assert OpenedOver(t, OpenedOn(t, ci, w, h), ci);
  }

  lemma FailingOpensNothing(t: Transport, ci: nat, w: WriteOutcome, now: nat)
    requires ci < |t.conns| && t.conns[ci].nextStream < STREAM_IDS
    ensures var v := FailedOn(t, ci, w, now);
            && v.streams == t.streams && v.blamed == t.blamed && |v.conns| == |t.conns|
            && forall i :: 0 <= i < |t.conns| ==> KeepsNumbers(t.conns[i], v.conns[i])
  {
    hide MakeHandle, KeyQueued, Delay;
  }

  // ---- one step ----

  /** Nothing is connected and no QUIC connection taken on: at most a ready connection fails, and one
      that may be retried starts a lookup. One that is connecting is left alone. */
  ghost predicate Settles(c: Conn, d: Conn) {
    && d.id == c.id && d.made == c.made && d.live == c.live && d.unreported == c.unreported
    && (d.cnx == c.cnx || d.cnx.None?) && d.resolving >= c.resolving
    && (d.state == Ready ==> c.state == Ready && d.cnx == c.cnx)
    && (c.state == Connecting ==> d.state == Connecting && d.resolving == c.resolving)
    && (d.state == Connecting ==> d.resolving > 0 || (c.state == Connecting && d.resolving == c.resolving))
  }

  /** QUIC connection `from` closed. */
  ghost predicate Closes(c: Conn, d: Conn, from: Cnx) {
    && d.id == c.id && d.made == c.made && d.live == c.live - {from} && d.unreported == c.unreported
    && d.cnx.None? && d.state == Backoff && d.held == c.held && d.resolving == c.resolving
  }

  /** Connection `c` becomes `d`, at position `i`. */
  ghost predicate Effect(t: Transport, step: Step, i: nat, c: Conn, d: Conn) {
    match step
    case DoEnsure(ci, now, started) => if i == ci then d == EnsureConnecting(c, now, started) else d == c
    case DoResolved(ci, r, now) => if i == ci then c.resolving > 0 && d == OnResolved(c, r, now) else d == c
    case DoConnected(ci, from) => if i == ci then d == HookConnected(c, from) else d == c
    case DoClose(ci, from, _) => if i == ci then Closes(c, d, from) else d == c
    case DoShutdown => d == if t.closed then c else Ended(c)
    case _ => Settles(c, d) && (step.DoOpen? || KeepsNumbers(c, d))
  }

  /** A callback that ends a ready generation: a close, or data or a control event that does not fit. */
  predicate Ends(t: Transport, step: Step)
    requires Enabled(t, step)
  {
    match step
    case DoClose(ci, _, _) => t.conns[ci].state == Ready
    case DoStreamData(ci, _, _, data, isFin, fits, _) => t.conns[ci].state == Ready && (data != [] || isFin) && !fits
    case DoStreamControl(ci, _, _, _, fits, _) => t.conns[ci].state == Ready && !fits
    case _ => false
  }

  /** Everything a step does to connections, opened streams and blames. */
  ghost predicate AllEffects(t: Transport, step: Step)
    requires Enabled(t, step)
  {
    var u := Apply(t, step);
    && u.closed == (t.closed || step.DoShutdown?)
    && |u.conns| == |t.conns| + (if step.DoCreate? then 1 else 0)
    && (step.DoCreate? ==> u.conns[|t.conns|] == BackendConnections.Fresh(step.id))
    && (forall i :: 0 <= i < |t.conns| ==> Effect(t, step, i, t.conns[i], u.conns[i]))
    && (if step.DoOpen? then OpensAtMostOne(t, u) else u.streams == t.streams)
    && u.blamed == t.blamed + if Ends(t, step) then [Blame(FailureOf(t.conns[step.ci]), step.from)] else []
  }

  lemma EnsureSettles(c: Conn, now: nat, started: bool)
    ensures Settles(c, EnsureConnecting(c, now, started))
    ensures c.state == Ready ==> EnsureConnecting(c, now, started) == c
    ensures EnsureConnecting(c, now, started).state == Ready ==> c.state == Ready
  {
    hide Delay;
  }

  lemma TouchedSettles(c: Conn, d: Conn, now: nat, started: bool)
    requires Touched(c, d)
    ensures Settles(c, d) && Settles(c, EnsureConnecting(d, now, started))
  {
    EnsureSettles(d, now, started);
    hide EnsureConnecting;
  }

  lemma OpenEffects(t: Transport, ws: seq<WriteOutcome>, starts: seq<bool>, now: nat)
    requires CanOpen(t)
    ensures var u := SendNew(t, ws, starts, now).0;
            && u.closed == t.closed && |u.conns| == |t.conns| && OpensAtMostOne(t, u) && u.blamed == t.blamed
            && forall i :: 0 <= i < |t.conns| ==> Settles(t.conns[i], u.conns[i])
  {
    hide TryFrom, EnsureConnecting, Touched;
    NothingOpened(t);
    if !t.closed && t.conns != [] {
      TryOnlyTouches(t, t.next, 0, ws, now, ConnectionFailed);
      TryOpensAtMostOne(t, t.next, 0, ws, now, ConnectionFailed);
      var v := TryFrom(t, t.next, 0, ws, now, ConnectionFailed).0;
      forall i | 0 <= i < |t.conns|
        ensures Settles(t.conns[i], v.conns[i]) && Settles(t.conns[i], EnsureAt(v, i, now, starts))
      {
        TouchedSettles(t.conns[i], v.conns[i], now, i < |starts| && starts[i]);
      }
      var u := EnsureAll(v, now, starts);
      forall i | 0 <= i < |t.conns| ensures u.conns[i].state == Ready || v.conns[i].state == Ready ==> u.conns[i] == v.conns[i] {
        EnsureSettles(v.conns[i], now, i < |starts| && starts[i]);
      }
      SameStreams(t, v, u);
      hide Settles;
    }
  }

  lemma SameStreams(t: Transport, v: Transport, u: Transport)
    requires OpensAtMostOne(t, v) && u.streams == v.streams && u.blamed == v.blamed && |u.conns| == |v.conns|
    requires forall i :: 0 <= i < |t.conns| && (u.conns[i].state == Ready || v.conns[i].state == Ready) ==> u.conns[i] == v.conns[i]
    ensures OpensAtMostOne(t, u)
  {
    forall i: nat | OpenedOver(t, v, i) ensures OpenedOver(t, u, i) {
    }
  }

  lemma EventsSettle(t: Transport, ci: nat, from: Cnx, events: seq<ArenaModel.Event>, fits: bool, now: nat)
    requires ci < |t.conns| && t.conns[ci].state == Ready
    ensures var u := OnEvents(t, ci, from, events, fits, now);
            && u.closed == t.closed && |u.conns| == |t.conns| && u.streams == t.streams
            && (forall i :: 0 <= i < |t.conns| ==> Settles(t.conns[i], u.conns[i]) && KeepsNumbers(t.conns[i], u.conns[i]))
            && u.blamed == t.blamed + if fits then [] else [Blame(FailureOf(t.conns[ci]), from)]
  {
    hide Delay, KeyQueued;
  }

  lemma CloseEffects(t: Transport, ci: nat, from: Cnx, now: nat)
    requires ci < |t.conns|
    ensures var u := DispatchClose(t, ci, from, now);
            && u.closed == t.closed && |u.conns| == |t.conns| && u.streams == t.streams
            && (forall i :: 0 <= i < |t.conns| ==> if i == ci then Closes(t.conns[i], u.conns[i], from) else u.conns[i] == t.conns[i])
            && u.blamed == t.blamed + if t.conns[ci].state == Ready then [Blame(FailureOf(t.conns[ci]), from)] else []
  {
    hide Delay, KeyQueued;
  }

  lemma SendEffects(t: Transport, h: Word, w: WriteOutcome, now: nat)
    ensures var u := SendExisting(t, h, w, now).0;
            && u.closed == t.closed && |u.conns| == |t.conns| && u.streams == t.streams && u.blamed == t.blamed
            && forall i :: 0 <= i < |t.conns| ==> Settles(t.conns[i], u.conns[i]) && KeepsNumbers(t.conns[i], u.conns[i])
  {
    hide Delay, KeyQueued, SendOn, HandleConnId;
    ConnByIdFinds(t.conns, HandleConnId(h));
  }

  lemma ReceiveEffects(t: Transport)
    ensures var u := Receive(t).0;
            && u.closed == t.closed && |u.conns| == |t.conns| && u.streams == t.streams && u.blamed == t.blamed
            && forall i :: 0 <= i < |t.conns| ==> Settles(t.conns[i], u.conns[i]) && KeepsNumbers(t.conns[i], u.conns[i])
  {
    FirstQueuedFinds(t.conns);
    hide ConnectionKey;
  }

  lemma {:induction false} CallbackEffects(t: Transport, step: Step)
    requires Enabled(t, step) && (step.DoStreamData? || step.DoStreamControl?)
    ensures AllEffects(t, step)
  {
    hide ArenaModel.Chunks, OnEvents, Settles, KeepsNumbers, MakeHandle;
    forall i | 0 <= i < |t.conns| ensures Settles(t.conns[i], t.conns[i]) && KeepsNumbers(t.conns[i], t.conns[i]) {
      SettledAsIs(t.conns[i]);
    }
    match step
    case DoStreamData(ci, from, stream, data, isFin, fits, now) =>
      if t.conns[ci].state == Ready && (data != [] || isFin) {
        EventsSettle(t, ci, from, ArenaModel.Chunks(HandleOf(t.conns[ci], stream), data, isFin, Data), fits, now);
      }
    case DoStreamControl(ci, from, stream, kind, fits, now) =>
      if t.conns[ci].state == Ready {
        EventsSettle(t, ci, from, [ArenaModel.Event(HandleOf(t.conns[ci], stream), [], true, kind)], fits, now);
      }
  }

  lemma SettledAsIs(c: Conn)
    ensures Settles(c, c) && KeepsNumbers(c, c)
  {
  }

  /** The effects of every step. */
  lemma {:induction false} StepEffects(t: Transport, step: Step)
    requires Enabled(t, step)
    ensures AllEffects(t, step)
  {
    hide Settles, KeepsNumbers, Closes, OpensAtMostOne, EnsureConnecting, OnResolved, HookConnected, Receive, SendExisting, SendNew, DispatchClose,
         DirectModel.HookStreamData, DirectModel.HookStreamControl;
    forall i | 0 <= i < |t.conns| ensures Settles(t.conns[i], t.conns[i]) && KeepsNumbers(t.conns[i], t.conns[i]) {
      SettledAsIs(t.conns[i]);
    }
    match step
    case DoStreamData(_, _, _, _, _, _, _) => CallbackEffects(t, step);
    case DoStreamControl(_, _, _, _, _, _) => CallbackEffects(t, step);
    case DoClose(ci, from, now) => CloseEffects(t, ci, from, now);
    case DoSend(h, w, now) => SendEffects(t, h, w, now);
    case DoOpen(ws, starts, now) => OpenEffects(t, ws, starts, now);
    case DoReceive => ReceiveEffects(t);
    case _ =>
  }
}
