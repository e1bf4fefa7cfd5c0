/** DNS lookups still out. A connection holds the resolver's handle of the latest one only, and any
    answer clears it, so a shutdown cancels at most one; here is exactly when that is enough. */
module DirectLookups {
  import opened Options
  import opened Words
  import opened BackendConnections
  import opened DirectModel
  import opened DirectEffects
  import opened DirectTheorems
  import opened DirectOwnership

  /** No lookup is out, or one, the one whose handle is held. */
  predicate LookupsHeld(c: Conn) {
    c.resolving == if c.held then 1 else 0
  }

  ghost predicate AllLookupsHeld(t: Transport) {
    forall i :: 0 <= i < |t.conns| ==> LookupsHeld(t.conns[i])
  }

  /** A handle is held only while its lookup is out. */
  predicate HeldIsOut(c: Conn) {
    c.held ==> c.resolving > 0
  }

  ghost predicate AllHeldAreOut(t: Transport) {
    forall i :: 0 <= i < |t.conns| ==> HeldIsOut(t.conns[i])
  }

  // ---- one step ----

  /** Asked to connect now, the connection issues a lookup. */
  predicate Issues(c: Conn, now: nat, started: bool) {
    started && (c.state == Idle || (c.state == Backoff && c.retryAt <= now))
  }

  /** It does so while an earlier lookup is out. */
  predicate OverlapsAt(c: Conn, now: nat, started: bool) {
    Issues(c, now, started) && c.resolving > 0
  }

  /** A retry, or a failed attempt to open a stream, issues a lookup while an earlier one is out. */
  ghost predicate Overlaps(t: Transport, step: Step)
    requires Enabled(t, step)
  {
    match step
    case DoEnsure(ci, now, started) => OverlapsAt(t.conns[ci], now, started)
    case DoOpen(ws, starts, now) =>
      && !t.closed && (forall i :: !Willing(t, ws, i))
      && exists i :: 0 <= i < |t.conns| && OverlapsAt(t.conns[i], now, i < |starts| && starts[i])
    case _ => false
  }

  ghost predicate NeverOverlaps(t: Transport, steps: seq<Step>)
    requires CanRun(t, steps)
    decreases |steps|
  {
    steps == [] || (!Overlaps(t, steps[0]) && NeverOverlaps(Apply(t, steps[0]), steps[1..]))
  }

  /** One more lookup out, its handle held, or nothing changed. */
  ghost predicate Looks(c: Conn, d: Conn, issues: bool) {
    d.held == (c.held || issues) && d.resolving == c.resolving + if issues then 1 else 0
  }

  lemma EnsureLooks(c: Conn, now: nat, started: bool)
    ensures Looks(c, EnsureConnecting(c, now, started), Issues(c, now, started))
  {
    hide Delay;
  }

  /** A failed attempt to open a stream asks every connection; one it has just failed is not due yet. */
  lemma {:induction false} OpenLooks(t: Transport, ws: seq<WriteOutcome>, starts: seq<bool>, now: nat, i: nat)
    requires CanOpen(t) && !t.closed && i < |t.conns|
    ensures i < |SendNew(t, ws, starts, now).0.conns|
    ensures Looks(t.conns[i], SendNew(t, ws, starts, now).0.conns[i],
                  (forall k :: !Willing(t, ws, k)) && Issues(t.conns[i], now, i < |starts| && starts[i]))
  {
    hide EnsureConnecting, TryFrom, Delay, HandleOf, Turn;
    var stop := TryMeans(t, t.next, 0, ws, now, ConnectionFailed);
    TryOnlyTouches(t, t.next, 0, ws, now, ConnectionFailed);
    var (v, r) := TryFrom(t, t.next, 0, ws, now, ConnectionFailed);
    assert Touched(t.conns[i], v.conns[i]);
    EnsureLooks(v.conns[i], now, i < |starts| && starts[i]);
    if r.Ok? {
      assert Willing(t, ws, Turn(|t.conns|, t.next, stop));
    } else {
      NoneWilling(t, v, r, ws, now);
      assert t.conns[i].state == Ready ==> Refused(t, v, ws, now, i);
    }
  }

  /** Every connection was tried and refused. */
  lemma {:induction false} NoneWilling(t: Transport, v: Transport, r: Result<Word, TransportError>, ws: seq<WriteOutcome>, now: nat)
    requires t.conns != [] && r.Err? && Tried(t, v, r, t.next, 0, |t.conns|, ws, now)
    ensures forall i :: !Willing(t, ws, i)
    ensures forall i :: 0 <= i < |t.conns| ==> Refused(t, v, ws, now, i)
  {
    hide Turn, HandleOf, Refused;
    forall i: nat | i < |t.conns| ensures !Willing(t, ws, i) && Refused(t, v, ws, now, i) {
      var k := TurnsReachAll(|t.conns|, t.next, i);
    }
  }

  // ---- every run ----

  /** How a step changes the lookups of one connection. */
  ghost predicate StepLooks(t: Transport, step: Step, c: Conn, d: Conn, i: nat)
    requires Enabled(t, step)
  {
    match step
    case DoEnsure(ci, now, started) => Looks(c, d, i == ci && Issues(c, now, started))
    case DoOpen(ws, starts, now) =>
      Looks(c, d, !t.closed && (forall k :: !Willing(t, ws, k)) && Issues(c, now, i < |starts| && starts[i]))
    case DoResolved(ci, _, _) =>
      if i == ci then c.resolving > 0 && !d.held && d.resolving == c.resolving - 1 else Looks(c, d, false)
    case DoShutdown => if t.closed then d == c else d == Ended(c)
    case _ => Looks(c, d, false)
  }

  lemma {:induction false} StepLookups(t: Transport, step: Step, i: nat)
    requires Enabled(t, step) && i < |t.conns|
    ensures i < |Apply(t, step).conns| && StepLooks(t, step, t.conns[i], Apply(t, step).conns[i], i)
  {
    StepEffects(t, step);
    assert Effect(t, step, i, t.conns[i], Apply(t, step).conns[i]);
    match step
    case DoOpen(ws, starts, now) =>
      DefOpen(t, ws, starts, now);
      hide Apply, Effect, AllEffects, SendNew, Issues, Enabled;
      if !t.closed {
        OpenLooks(t, ws, starts, now, i);
      }
    case DoEnsure(ci, now, started) =>
      EnsureLooks(t.conns[ci], now, started);
      hide Apply, AllEffects, EnsureConnecting, Issues;
    case _ =>
      hide Apply, AllEffects, Delay;
  }

  lemma DefOpen(t: Transport, ws: seq<WriteOutcome>, starts: seq<bool>, now: nat)
    requires CanOpen(t)
    ensures Enabled(t, DoOpen(ws, starts, now)) && Apply(t, DoOpen(ws, starts, now)) == SendNew(t, ws, starts, now).0
    ensures t.closed ==> SendNew(t, ws, starts, now).0 == t
  {
    hide TryFrom, EnsureAll;
  }

  /** Connection `i` is the one whose lookups overlap in this step. */
  ghost predicate OverlapsIn(t: Transport, step: Step, i: nat)
    requires Enabled(t, step) && i < |t.conns|
  {
    match step
    case DoEnsure(ci, now, started) => i == ci && OverlapsAt(t.conns[i], now, started)
    case DoOpen(ws, starts, now) =>
      !t.closed && (forall k :: !Willing(t, ws, k)) && OverlapsAt(t.conns[i], now, i < |starts| && starts[i])
    case _ => false
  }

  lemma ConnHeld(t: Transport, step: Step, i: nat)
    requires Enabled(t, step) && i < |t.conns| && LookupsHeld(t.conns[i])
    ensures i < |Apply(t, step).conns| && (LookupsHeld(Apply(t, step).conns[i]) <==> !OverlapsIn(t, step, i))
  {
    StepLookups(t, step, i);
    hide Apply, Enabled, Issues, Willing;
  }

  lemma FreshHasNone(step: Step)
    ensures step.DoCreate? ==> LookupsHeld(BackendConnections.Fresh(step.id))
  {
  }

  lemma {:induction false} StepHolds(t: Transport, step: Step)
    requires Enabled(t, step) && AllLookupsHeld(t)
    ensures AllLookupsHeld(Apply(t, step)) <==> !Overlaps(t, step)
  {
    StepEffects(t, step);
    hide Apply, Enabled, Effect, Issues, Willing, OpensAtMostOne, LookupsHeld, OverlapsAt;
    var u := Apply(t, step);
    FreshHasNone(step);
    forall i: nat | i < |t.conns| ensures LookupsHeld(u.conns[i]) <==> !OverlapsIn(t, step, i) {
      ConnHeld(t, step, i);
    }
  }

  lemma {:induction false} HeldExactly(t: Transport, steps: seq<Step>)
    requires AllLookupsHeld(t) && CanRun(t, steps)
    ensures Throughout(AllLookupsHeld, t, steps) <==> NeverOverlaps(t, steps)
    decreases |steps|
  {
    hide Apply, Enabled, Overlaps, AllLookupsHeld;
    if steps != [] {
      StepHolds(t, steps[0]);
      if !Overlaps(t, steps[0]) {
        HeldExactly(Apply(t, steps[0]), steps[1..]);
      }
    }
  }

  /** Every lookup out can be cancelled at every point of a run if and only if no retry and no failed
      attempt to open a stream issued a lookup while an earlier one of that connection was out. */
  lemma {:induction false} LookupsStayHeldExactly(steps: seq<Step>)
    requires CanRun(Initial(), steps)
    ensures Throughout(AllLookupsHeld, Initial(), steps) <==> NeverOverlaps(Initial(), steps)
  {
    HeldExactly(Initial(), steps);
  }

  lemma {:induction false} HeldLookupsAreOut(t: Transport, steps: seq<Step>)
    requires AllHeldAreOut(t) && CanRun(t, steps)
    ensures AllHeldAreOut(Run(t, steps))
    decreases |steps|
  {
    hide Apply, Enabled, AllHeldAreOut;
    if steps != [] {
      StepKeepsHeldOut(t, steps[0]);
      HeldLookupsAreOut(Apply(t, steps[0]), steps[1..]);
    }
  }

  lemma {:induction false} StepKeepsHeldOut(t: Transport, step: Step)
    requires AllHeldAreOut(t) && Enabled(t, step)
    ensures AllHeldAreOut(Apply(t, step))
  {
    StepEffects(t, step);
    hide Apply, Enabled, Effect, Issues, Willing, OpensAtMostOne;
    var u := Apply(t, step);
    forall i: nat | i < |t.conns| ensures HeldIsOut(u.conns[i]) {
      StepLookups(t, step, i);
      assert HeldIsOut(t.conns[i]);
    }
  }

  // ---- shutdown ----

  /** No lookup of any connection is out. */
  ghost predicate NothingOut(t: Transport) {
    forall i :: 0 <= i < |t.conns| ==> t.conns[i].resolving == 0
  }

  /** Whatever happened before, shutting down leaves no lookup out if and only if each connection has
      none out or the one whose handle it holds. */
  lemma {:induction false} ShutdownLeavesNoLookupExactly(steps: seq<Step>)
    requires CanRun(Initial(), steps) && !Run(Initial(), steps).closed
    ensures var t := Run(Initial(), steps); NothingOut(Close(t)) <==> AllLookupsHeld(t)
  {
    HeldLookupsAreOut(Initial(), steps);
    var t := Run(Initial(), steps);
    hide Run, CanRun;
    forall i | 0 <= i < |t.conns| ensures Close(t).conns[i].resolving == 0 <==> LookupsHeld(t.conns[i]) {
      assert HeldIsOut(t.conns[i]);
    }
  }

  /** Ready on connection 7 with the second lookup still out: shut down now, its answer is still to come. */
  lemma {:induction false} ShutdownLeavesALookup()
    ensures var steps := RefusedRun() + RetryTwice();
            && CanRun(Initial(), steps) && !NeverOverlaps(Initial(), steps)
            && var u := Close(Run(Initial(), steps));
            u.closed && |u.conns| == 1 && u.conns[0].resolving == 1
  {
    RefusingReached();
    RetriedTwice();
    CarryingLeavesOne();
    hide *;
    var steps := RefusedRun() + RetryTwice();
    RunConcat(Initial(), RefusedRun(), RetryTwice());
    if Throughout(AllLookupsHeld, Initial(), steps) {
      ThroughoutEnds(AllLookupsHeld, Initial(), steps);
      assert false;
    }
    LookupsStayHeldExactly(steps);
  }

  lemma CarryingLeavesOne()
    ensures var t := Carrying(7, {7}, 1, 0);
            !AllLookupsHeld(t) && Close(t).closed && |Close(t).conns| == 1 && Close(t).conns[0].resolving == 1
  {
    assert !LookupsHeld(Carrying(7, {7}, 1, 0).conns[0]);
  }
}
