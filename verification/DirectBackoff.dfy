/** How long a connection that keeps failing is left alone. */
module DirectBackoff {
  import opened Options
  import opened Words
  import opened StreamHandles
  import opened SlotChains
  import ArenaModel
  import opened BackendConnections
  import opened DirectModel
  import opened DirectEffects
  import opened DirectTheorems
  import opened DirectFailures
  import opened DirectLookups

  /** A tenth of a second after the first failure, doubling with each, 25.6 seconds from the ninth on. */
  function Wait(failures: nat): nat {
    if failures <= 1 then 100_000 else if failures >= 9 then 25_600_000 else 2 * Wait(failures - 1)
  }

  lemma {:induction false} DelayIsWait(n: nat)
    ensures Delay(n) == Wait(n)
  {
    if 1 < n < 9 {
      BackoffDoubles(n - 1);
      DelayIsWait(n - 1);
    } else {
      BackoffDoubles(n);
    }
  }

  // ---- one step ----

  /** Asked now, the connection would try to connect. */
  predicate Due(c: Conn, now: nat) {
    c.state == Idle || (c.state == Backoff && c.retryAt <= now)
  }

  /** The step makes connection `i` fail: its lookup cannot be issued, its attempt to connect fails, its
      QUIC connection closes, what it received does not fit, or a write finds it broken. */
  ghost predicate FailsIn(t: Transport, step: Step, i: nat)
    requires Enabled(t, step) && i < |t.conns|
  {
    match step
    case DoEnsure(ci, now, started) => i == ci && Due(t.conns[i], now) && !started
    case DoResolved(ci, r, _) => i == ci && (r.ConnectFailed? || r.RegisterRefused?)
    case DoClose(ci, _, _) => i == ci
    case DoOpen(ws, starts, now) =>
      || Signals(t, step, i)
      || (!t.closed && (forall k :: !Willing(t, ws, k)) && Due(t.conns[i], now) && !(i < |starts| && starts[i]))
    case _ => Signals(t, step, i)
  }

  /** When the step happens. */
  function Time(step: Step): nat {
    match step
    case DoEnsure(_, now, _) => now
    case DoResolved(_, _, now) => now
    case DoStreamData(_, _, _, _, _, _, now) => now
    case DoStreamControl(_, _, _, _, _, now) => now
    case DoClose(_, _, now) => now
    case DoSend(_, _, now) => now
    case DoOpen(_, _, now) => now
    case _ => 0
  }

  /** One more failure in a row, and the next try that much later; or no change. */
  ghost predicate Counted(c: Conn, d: Conn, fails: bool, now: nat) {
    if fails then d.failureCount == Min(c.failureCount + 1, U32_MAX) && d.retryAt == now + Wait(d.failureCount) && d.state == Backoff
    else d.failureCount == c.failureCount && d.retryAt == c.retryAt
  }

  lemma MarkCounts(c: Conn, now: nat)
    ensures Counted(c, MarkFailed(c, now), true, now)
  {
    DelayIsWait(MarkFailed(c, now).failureCount);
    hide Delay, Wait;
  }

  lemma EnsureCounts(c: Conn, now: nat, started: bool)
    ensures Counted(c, EnsureConnecting(c, now, started), Due(c, now) && !started, now)
    ensures c.state == Ready || c.state == Connecting || (c.state == Backoff && now < c.retryAt) ==> EnsureConnecting(c, now, started) == c
  {
    MarkCounts(c, now);
    hide MarkFailed, Wait;
  }

  lemma {:induction false} TryCounts(t: Transport, cursor: nat, offset: nat, w: seq<WriteOutcome>, now: nat, last: TransportError, i: nat)
    requires t.conns != [] && CanOpen(t) && i < |t.conns|
    ensures i < |TryFrom(t, cursor, offset, w, now, last).0.conns|
    ensures Counted(t.conns[i], TryFrom(t, cursor, offset, w, now, last).0.conns[i], TriedInVain(t, w, cursor, offset, i), now)
    decreases |t.conns| - offset
  {
    hide Turn, TriedInVain, MakeHandle, FailedOn, FailedAt, Counted;
    if offset >= |t.conns| {
      NobodyLeft(t, w, cursor, offset);
      NotCounted(t.conns[i], t.conns[i]);
    } else {
      var ci := Turn(|t.conns|, cursor, offset);
      if t.conns[ci].state != Ready {
        TryCounts(t, cursor, offset + 1, w, now, last, i);
        SkippedTurn(t, w, cursor, offset, i);
      } else {
        match SendOn(t.conns[ci], None, OutcomeAt(w, ci)).1
        case Ok(h) =>
          WillingTurn(t, w, cursor, offset, i);
          NotCounted(t.conns[i], OpenedOn(t, ci, OutcomeAt(w, ci), h).conns[i]);
        case Err(e) =>
          var v := FailedOn(t, ci, OutcomeAt(w, ci), now);
          FailedOnTouches(t, ci, OutcomeAt(w, ci), now);
          FailedOnFails(t, ci, OutcomeAt(w, ci), now);
          FailedOnCounts(t, ci, OutcomeAt(w, ci), now);
          FailedTurn(t, v, w, cursor, offset, i);
          TryCounts(v, cursor, offset + 1, w, now, e, i);
          TryOnlyTouches(v, cursor, offset + 1, w, now, e);
          AfterFailing(t, v, TryFrom(v, cursor, offset + 1, w, now, e).0, w, cursor, offset, now, i);
      }
    }
  }

  lemma NotCounted(c: Conn, d: Conn)
    requires d.failureCount == c.failureCount && d.retryAt == c.retryAt
    ensures forall now :: Counted(c, d, false, now)
  {
  }

  lemma FailedOnCounts(t: Transport, ci: nat, w: WriteOutcome, now: nat)
    requires ci < |t.conns| && t.conns[ci].nextStream < STREAM_IDS
    ensures ci < |FailedOn(t, ci, w, now).conns| && Counted(t.conns[ci], FailedOn(t, ci, w, now).conns[ci], true, now)
  {
    var c := SendOn(t.conns[ci], None, w).0;
    MarkCounts(c, now);
    hide MakeHandle, MarkFailed, KeyQueued, Wait;
  }

  /** The one that failed first is not tried again. */
  lemma AfterFailing(t: Transport, v: Transport, u: Transport, w: seq<WriteOutcome>, cursor: nat, offset: nat, now: nat, i: nat)
    requires offset < |t.conns| && FailedAt(t, v, Turn(|t.conns|, cursor, offset)) && i < |t.conns| == |u.conns|
    requires Counted(t.conns[Turn(|t.conns|, cursor, offset)], v.conns[Turn(|t.conns|, cursor, offset)], true, now)
    requires Counted(v.conns[i], u.conns[i], TriedInVain(v, w, cursor, offset + 1, i), now)
    requires TriedInVain(t, w, cursor, offset, i) <==> i == Turn(|t.conns|, cursor, offset) || TriedInVain(v, w, cursor, offset + 1, i)
    requires u.conns[i].state == v.conns[i].state || v.conns[i].state == Ready
    ensures Counted(t.conns[i], u.conns[i], TriedInVain(t, w, cursor, offset, i), now)
  {
    hide Turn, Wait, Signal;
    if i == Turn(|t.conns|, cursor, offset) {
      NotReadyIsNotTried(v, w, cursor, offset + 1, i);
    }
    hide TriedInVain;
  }

  lemma {:induction false} OpenCounts(t: Transport, ws: seq<WriteOutcome>, starts: seq<bool>, now: nat, i: nat)
    requires CanOpen(t) && i < |t.conns|
    ensures var step := DoOpen(ws, starts, now);
            var u := SendNew(t, ws, starts, now).0;
            Enabled(t, step) && i < |u.conns| && Counted(t.conns[i], u.conns[i], FailsIn(t, step, i), now)
  {
    hide TryFrom, TriedInVain, Counted, Turn, HandleOf, EnsureConnecting;
    NotCounted(t.conns[i], t.conns[i]);
    if !t.closed {
      var stop := TryMeans(t, t.next, 0, ws, now, ConnectionFailed);
      var (v, r) := TryFrom(t, t.next, 0, ws, now, ConnectionFailed);
      TryCounts(t, t.next, 0, ws, now, ConnectionFailed, i);
      TryOnlyTouches(t, t.next, 0, ws, now, ConnectionFailed);
      assert Touched(t.conns[i], v.conns[i]);
      if r.Ok? {
        assert Willing(t, ws, Turn(|t.conns|, t.next, stop));
      } else {
        NoneWilling(t, v, r, ws, now);
        assert Refused(t, v, ws, now, i);
        TriedIsReady(t, ws, t.next, 0, i);
        ThenAsked(t.conns[i], v.conns[i], EnsureAt(v, i, now, starts), TriedInVain(t, ws, t.next, 0, i), now, i < |starts| && starts[i]);
      }
    }
  }

  lemma TriedIsReady(t: Transport, w: seq<WriteOutcome>, cursor: nat, offset: nat, i: nat)
    requires i < |t.conns|
    ensures TriedInVain(t, w, cursor, offset, i) ==> t.conns[i].state == Ready
  {
  }

  /** A connection that has just failed is not asked; a ready one would not be, either. */
  lemma ThenAsked(c: Conn, v: Conn, d: Conn, tried: bool, now: nat, started: bool)
    requires Counted(c, v, tried, now) && Touched(c, v) && d == EnsureConnecting(v, now, started)
    requires (tried ==> c.state == Ready) && (c.state == Ready ==> v.state == Backoff && v.retryAt > now)
    ensures Counted(c, d, tried || (Due(c, now) && !started), now)
  {
    EnsureCounts(v, now, started);
    hide Wait, EnsureConnecting;
  }

  lemma {:induction false} SendCounts(t: Transport, h: Word, w: WriteOutcome, now: nat, i: nat)
    requires i < |t.conns|
    ensures i < |SendExisting(t, h, w, now).0.conns|
    ensures Counted(t.conns[i], SendExisting(t, h, w, now).0.conns[i], Signals(t, DoSend(h, w, now), i), now)
  {
    hide KeyQueued, HandleConnId, HandleGeneration, HandleStreamId, MakeHandle, MarkFailed, Wait, Counted;
    ConnByIdFinds(t.conns, HandleConnId(h));
    NotCounted(t.conns[i], t.conns[i]);
    MarkCounts(t.conns[i], now);
  }

  /** What a step does to the count: a connected event starts it again, a failure adds one and sets the
      next try, and nothing else touches it. */
  lemma {:induction false} StepCounts(t: Transport, step: Step, i: nat)
    requires Enabled(t, step) && i < |t.conns|
    ensures i < |Apply(t, step).conns|
    ensures var (c, d) := (t.conns[i], Apply(t, step).conns[i]);
            if step.DoConnected? && step.ci == i then d.failureCount == 0 && d.retryAt == 0
            else Counted(c, d, FailsIn(t, step, i), Time(step))
  {
    NotCounted(t.conns[i], t.conns[i]);
    match step
    case DoOpen(ws, starts, now) =>
      OpenCounts(t, ws, starts, now, i);
      DefOpen(t, ws, starts, now);
      hide Apply, SendNew, Counted, FailsIn;
    case DoSend(h, w, now) =>
      SendCounts(t, h, w, now, i);
      hide SendExisting, Counted;
    case DoEnsure(ci, now, started) =>
      EnsureCounts(t.conns[ci], now, started);
      hide EnsureConnecting, Counted;
    case DoReceive =>
      FirstQueuedFinds(t.conns);
      hide ConnectionKey, Wait;
    case _ => CallbackCounts(t, step, i);
  }

  lemma {:induction false} CallbackCounts(t: Transport, step: Step, i: nat)
    requires Enabled(t, step) && i < |t.conns|
    requires !step.DoOpen? && !step.DoSend? && !step.DoEnsure? && !step.DoReceive?
    ensures i < |Apply(t, step).conns|
    ensures var (c, d) := (t.conns[i], Apply(t, step).conns[i]);
            if step.DoConnected? && step.ci == i then d.failureCount == 0 && d.retryAt == 0
            else Counted(c, d, FailsIn(t, step, i), Time(step))
  {
    hide KeyQueued, ArenaModel.Chunks, MakeHandle, MarkFailed, Wait, Unreported;
    MarkCounts(t.conns[i], Time(step));
    if step.DoResolved? {
      MarkCounts(t.conns[step.ci].(held := false, resolving := t.conns[step.ci].resolving - 1), step.now);
    }
    if step.DoClose? || step.DoStreamData? || step.DoStreamControl? {
      MarkCounts(t.conns[i].(cnx := None), Time(step));
    }
  }

  // ---- every run ----

  /** Failures of connection `i` since it was last connected, with `k` before the run. */
  ghost function InARow(t: Transport, steps: seq<Step>, i: nat, k: nat): nat
    requires CanRun(t, steps)
    decreases |steps|
  {
    if steps == [] then k
    else InARow(Apply(t, steps[0]), steps[1..], i, OneMore(t, steps[0], i, k))
  }

  ghost function OneMore(t: Transport, step: Step, i: nat, k: nat): nat
    requires Enabled(t, step)
  {
    if i >= |t.conns| then k
    else if step.DoConnected? && step.ci == i then 0
    else if FailsIn(t, step, i) then k + 1
    else k
  }

  /** The count of a connection, up to 32 bits; a connection that is not there yet has not failed. */
  ghost predicate CountsFailures(t: Transport, i: nat, k: nat) {
    if i < |t.conns| then t.conns[i].failureCount == Min(k, U32_MAX) else k == 0
  }

  lemma {:induction false} StepCountsFailures(t: Transport, step: Step, i: nat, k: nat)
    requires Enabled(t, step) && CountsFailures(t, i, k)
    ensures CountsFailures(Apply(t, step), i, OneMore(t, step, i, k))
  {
    hide Apply, Enabled, FailsIn, Wait;
    if i < |t.conns| {
      StepCounts(t, step, i);
    } else if i < |Apply(t, step).conns| {
      NewHasNotFailed(t, step);
    }
  }

  lemma NewHasNotFailed(t: Transport, step: Step)
    requires Enabled(t, step) && |t.conns| < |Apply(t, step).conns|
    ensures |Apply(t, step).conns| == |t.conns| + 1 && Apply(t, step).conns[|t.conns|].failureCount == 0
  {
    StepEffects(t, step);
    hide Apply;
  }

  lemma {:induction false} RunCountsFailures(t: Transport, steps: seq<Step>, i: nat, k: nat)
    requires CanRun(t, steps) && CountsFailures(t, i, k)
    ensures CountsFailures(Run(t, steps), i, InARow(t, steps, i, k))
    decreases |steps|
  {
    hide Apply, Enabled, CountsFailures, OneMore;
    if steps != [] {
      StepCountsFailures(t, steps[0], i, k);
      RunCountsFailures(Apply(t, steps[0]), steps[1..], i, OneMore(t, steps[0], i, k));
    }
  }

  /** Over every run: a step that makes connection `i` fail for the k-th time without a connected event in
      between sets its next try `Wait(k)` later, and until then nobody who asks gets it to connect. */
  lemma {:induction false} WaitFollowsFailuresInARow(steps: seq<Step>, step: Step, i: nat)
    requires CanRun(Initial(), steps) && Enabled(Run(Initial(), steps), step)
    requires i < |Run(Initial(), steps).conns| && FailsIn(Run(Initial(), steps), step, i)
    ensures var t := Run(Initial(), steps);
            var k := InARow(Initial(), steps, i, 0) + 1;
            && i < |Apply(t, step).conns|
            && var d := Apply(t, step).conns[i];
            && d.state == Backoff && d.retryAt == Time(step) + Wait(k)
            && forall now: nat, started: bool :: now < Time(step) + Wait(k) ==> EnsureConnecting(d, now, started) == d
  {
    RunCountsFailures(Initial(), steps, i, 0);
    var t := Run(Initial(), steps);
    StepCounts(t, step, i);
    NotConnectedThen(t, step, i);
    hide Run, CanRun, Apply, Enabled, FailsIn;
    var (k, d) := (InARow(Initial(), steps, i, 0) + 1, Apply(t, step).conns[i]);
    assert Wait(d.failureCount) == Wait(k);
    hide Wait;
    forall now: nat, started: bool | now < Time(step) + Wait(k) ensures EnsureConnecting(d, now, started) == d {
      EnsureCounts(d, now, started);
    }
  }

  lemma NotConnectedThen(t: Transport, step: Step, i: nat)
    requires Enabled(t, step) && i < |t.conns| && FailsIn(t, step, i)
    ensures !step.DoConnected?
  {
  }
}
