/** For which QUIC connection an endpoint acts: whose stream a write or a cancellation reaches, and
    whose callback ends a generation. The code compares a callback or a late lookup with nothing but
    the state, so both can go wrong; here is exactly when. */
module DirectOwnership {
  import opened Options
  import opened RealmQuota
  import opened Words
  import opened StreamHandles
  import opened SlotChains
  import ArenaModel
  import opened BackendConnections
  import opened DirectModel
  import DirectSafety
  import opened DirectEffects
  import opened DirectTheorems

  /** `P` holds at every point of the run, its start and its end included. */
  ghost predicate Throughout(P: Transport -> bool, t: Transport, steps: seq<Step>)
    requires CanRun(t, steps)
    decreases |steps|
  {
    P(t) && (steps == [] || Throughout(P, Apply(t, steps[0]), steps[1..]))
  }

  // ---- what holds in every run ----

  /** The QUIC connection in hand is in the index, and so is the one that made a connection ready. */
  ghost predicate Indexed(c: Conn) {
    && (c.cnx.Some? ==> c.cnx.value in c.live)
    && (c.state == Ready ==> c.made != [] && c.made[|c.made| - 1] in c.live)
  }

  /** Stream `o` was opened in the generation that connection `c` is ready in. */
  predicate Open(c: Conn, o: OpenedStream) {
    o.id == c.id && o.epoch == |c.made| && c.state == Ready
  }

  /** A ready connection that has used a stream number has an open stream. */
  ghost predicate Numbered(t: Transport, c: Conn) {
    c.state == Ready && c.nextStream > 0 ==> exists k :: 0 <= k < |t.streams| && Open(c, t.streams[k])
  }

  ghost predicate OwnInv(t: Transport) {
    && (forall i :: 0 <= i < |t.conns| ==> Indexed(t.conns[i]))
    && (forall k :: 0 <= k < |t.streams| ==> t.streams[k].via.Some?)
    && (forall i, k :: 0 <= i < |t.conns| && 0 <= k < |t.streams| && Open(t.conns[i], t.streams[k]) ==> t.conns[i].cnx.Some?)
    && (forall i :: 0 <= i < |t.conns| ==> Numbered(t, t.conns[i]))
  }

  lemma StepKeepsIndexed(t: Transport, step: Step, i: nat)
    requires Enabled(t, step) && AllEffects(t, step) && i < |t.conns| && Indexed(t.conns[i])
    ensures Indexed(Apply(t, step).conns[i])
  {
    assert Effect(t, step, i, t.conns[i], Apply(t, step).conns[i]);
    hide Apply, Delay, OpensAtMostOne;
  }

  /** A stream that is open after a step was open before it, on the same QUIC connection, unless the
      step took on another one or opened it. */
  lemma OpenBefore(t: Transport, step: Step, i: nat, o: OpenedStream)
    requires Enabled(t, step) && AllEffects(t, step) && i < |t.conns| && o.epoch <= |t.conns[i].made|
    requires Open(Apply(t, step).conns[i], o)
    ensures Open(t.conns[i], o)
    ensures var takesOn := step.DoResolved? && step.ci == i && step.resolution.Established?;
            Apply(t, step).conns[i].cnx == if takesOn then Some(step.resolution.cnx) else t.conns[i].cnx
  {
    assert Effect(t, step, i, t.conns[i], Apply(t, step).conns[i]);
    hide Apply, Delay, OpensAtMostOne;
  }

  /** What the safety invariant says of two connections and of a stream. */
  lemma StreamEpoch(t: Transport, i: nat, k: nat)
    requires DirectSafety.Inv(t) && i < |t.conns| && k < |t.streams| && t.streams[k].id == t.conns[i].id
    ensures t.streams[k].epoch <= |t.conns[i].made|
    ensures Open(t.conns[i], t.streams[k]) ==> t.streams[k].stream < t.conns[i].nextStream
    ensures t.streams[k].handle == MakeHandle(t.conns[i].id, t.streams[k].epoch % GENERATIONS, t.streams[k].stream)
    ensures t.conns[i].generation == |t.conns[i].made| % GENERATIONS
    ensures forall j :: 0 <= j < |t.conns| && t.conns[j].id == t.conns[i].id ==> j == i
  {
    assert DirectSafety.StreamKnown(t.conns, t.streams[k]) && ConnInv(t.conns[i]);
    hide MakeHandle, ConnInv;
  }

  /** The stream of an opening step, against connection `i`. */
  lemma JustOpened(t: Transport, u: Transport, i: nat)
    requires DirectSafety.ConnsInv(t) && OpensAtMostOne(t, u) && u.streams != t.streams && i < |t.conns|
    ensures |u.streams| == |t.streams| + 1 && u.streams[..|t.streams|] == t.streams
    ensures u.streams[|t.streams|].via.Some?
    ensures u.streams[|t.streams|].id == t.conns[i].id ==>
              u.streams[|t.streams|].via == t.conns[i].cnx && u.streams[|t.streams|].epoch == |t.conns[i].made|
  {
    hide ConnInv;
    var ci: nat :| OpenedOver(t, u, ci);
  }

  lemma {:induction false} StepKeepsOwnInv(t: Transport, step: Step)
    requires DirectSafety.Inv(t) && OwnInv(t) && Enabled(t, step)
    ensures OwnInv(Apply(t, step))
  {
    StepEffects(t, step);
    assert DirectSafety.ConnsInv(t);
    hide Apply, Enabled, Effect, OpensAtMostOne, Ends, DirectSafety.Inv, DirectSafety.ConnsInv, Open, Indexed, Numbered;
    var u := Apply(t, step);
    forall i | 0 <= i < |u.conns| ensures Indexed(u.conns[i]) {
      if i < |t.conns| {
        StepKeepsIndexed(t, step, i);
      } else {
        FreshIsIndexed(step.id);
      }
    }
    forall k | 0 <= k < |u.streams| ensures u.streams[k].via.Some? {
      OldOrNew(t, step, k);
    }
    forall i, k | 0 <= i < |u.conns| && 0 <= k < |u.streams| && Open(u.conns[i], u.streams[k]) ensures u.conns[i].cnx.Some? {
      if i < |t.conns| {
        OpenStaysCarried(t, step, i, k);
      } else {
        FreshIsNotOpen(step.id, u.streams[k]);
      }
    }
    forall i | 0 <= i < |u.conns| ensures Numbered(u, u.conns[i]) {
      if i < |t.conns| {
        StepKeepsNumbered(t, step, i);
      } else {
        FreshIsNumbered(u, step.id);
      }
    }
  }

  lemma FreshIsNumbered(t: Transport, id: ConnId)
    ensures Numbered(t, BackendConnections.Fresh(id))
  {
  }

  lemma StepKeepsNumbered(t: Transport, step: Step, i: nat)
    requires Enabled(t, step) && AllEffects(t, step) && i < |t.conns| && Numbered(t, t.conns[i])
    ensures Numbered(Apply(t, step), Apply(t, step).conns[i])
  {
    var u := Apply(t, step);
    var (c, d) := (t.conns[i], u.conns[i]);
    assert Effect(t, step, i, c, d);
    hide Apply, Delay, Ends;
    if d.state == Ready && d.nextStream > 0 {
      if step.DoOpen? && OpenedOver(t, u, i) {
        assert Open(d, u.streams[|t.streams|]);
      } else if !step.DoConnected? || step.ci != i {
        SameNumber(t, step, i);
        var k :| 0 <= k < |t.streams| && Open(c, t.streams[k]);
        assert u.streams[k] == t.streams[k] by { hide Effect; }
        assert Open(d, u.streams[k]);
      }
    }
  }

  lemma SameNumber(t: Transport, step: Step, i: nat)
    requires Enabled(t, step) && AllEffects(t, step) && i < |t.conns| && Apply(t, step).conns[i].state == Ready
    requires !(step.DoConnected? && step.ci == i) && !OpenedOver(t, Apply(t, step), i)
    ensures var (c, d) := (t.conns[i], Apply(t, step).conns[i]);
            c.state == Ready && d.nextStream == c.nextStream && d.made == c.made && d.id == c.id
    ensures |t.streams| <= |Apply(t, step).streams| && forall k :: 0 <= k < |t.streams| ==> Apply(t, step).streams[k] == t.streams[k]
  {
    assert Effect(t, step, i, t.conns[i], Apply(t, step).conns[i]);
    hide Apply, Delay, Ends;
    if step.DoOpen? && Apply(t, step).streams != t.streams {
      var ci: nat :| OpenedOver(t, Apply(t, step), ci);
    }
  }

  lemma FreshIsIndexed(id: ConnId)
    ensures Indexed(BackendConnections.Fresh(id))
  {
  }

  lemma FreshIsNotOpen(id: ConnId, o: OpenedStream)
    ensures !Open(BackendConnections.Fresh(id), o)
  {
  }

  lemma OldOrNew(t: Transport, step: Step, k: nat)
    requires Enabled(t, step) && AllEffects(t, step) && OwnInv(t) && k < |Apply(t, step).streams|
    ensures Apply(t, step).streams[k].via.Some?
  {
    var u := Apply(t, step);
    hide Apply, Effect, Open, Indexed;
    if u.streams != t.streams {
      var ci: nat :| OpenedOver(t, u, ci);
    }
  }

  lemma OpenStaysCarried(t: Transport, step: Step, i: nat, k: nat)
    requires DirectSafety.Inv(t) && OwnInv(t) && Enabled(t, step) && AllEffects(t, step)
    requires i < |t.conns| && k < |Apply(t, step).streams| && Open(Apply(t, step).conns[i], Apply(t, step).streams[k])
    ensures Apply(t, step).conns[i].cnx.Some?
  {
    var u := Apply(t, step);
    var o := u.streams[k];
    StreamIsKnown(t, step, i, k);
    OpenBefore(t, step, i, o);
    hide Apply, Effect, OpensAtMostOne, DirectSafety.Inv, Enabled;
  }

  /** A stream of the transport after a step: one it had, or opened now over the connection in hand. */
  lemma StreamIsKnown(t: Transport, step: Step, i: nat, k: nat)
    requires DirectSafety.Inv(t) && OwnInv(t) && Enabled(t, step) && AllEffects(t, step)
    requires i < |t.conns| && k < |Apply(t, step).streams| && Apply(t, step).streams[k].id == t.conns[i].id
    ensures var o := Apply(t, step).streams[k];
            && o.epoch <= |t.conns[i].made| && o.via.Some?
            && (k < |t.streams| ==> t.streams[k] == o)
            && (k >= |t.streams| ==> step.DoOpen? && o.epoch == |t.conns[i].made| && o.via == t.conns[i].cnx)
  {
    var u := Apply(t, step);
    assert DirectSafety.ConnsInv(t);
    hide Apply, Effect, DirectSafety.ConnsInv, Enabled, OpensAtMostOne;
    if u.streams != t.streams {
      JustOpened(t, u, i);
      assert k < |t.streams| ==> u.streams[..|t.streams|][k] == u.streams[k];
    }
    if k < |t.streams| {
      StreamEpoch(t, i, k);
    }
    hide DirectSafety.Inv;
  }

  lemma {:induction false} InitialOwnInv()
    ensures DirectSafety.Inv(Initial()) && OwnInv(Initial())
  {
    InitialInv();
  }

  // ---- a stream and the QUIC connection it was opened on ----

  /** Every open stream is on the QUIC connection its endpoint holds. */
  ghost predicate Steady(t: Transport) {
    forall i, k :: 0 <= i < |t.conns| && 0 <= k < |t.streams| && Open(t.conns[i], t.streams[k]) ==>
      t.conns[i].cnx == t.streams[k].via
  }

  /** A lookup is answered with a new QUIC connection while the endpoint is ready on another one and
      has used a stream number there. */
  predicate Pulls(t: Transport, step: Step) {
    && step.DoResolved? && step.ci < |t.conns| && step.resolution.Established?
    && t.conns[step.ci].state == Ready && t.conns[step.ci].nextStream > 0
  }

  /** That is, with a stream open. */
  lemma PullsAnOpenStream(t: Transport, step: Step)
    requires DirectSafety.Inv(t) && OwnInv(t)
    ensures Pulls(t, step) <==>
              && step.DoResolved? && step.ci < |t.conns| && step.resolution.Established?
              && exists k :: 0 <= k < |t.streams| && Open(t.conns[step.ci], t.streams[k])
  {
    if step.DoResolved? && step.ci < |t.conns| {
      assert Numbered(t, t.conns[step.ci]);
      forall k | 0 <= k < |t.streams| && Open(t.conns[step.ci], t.streams[k]) ensures t.conns[step.ci].nextStream > 0 {
        StreamEpoch(t, step.ci, k);
      }
    }
    hide DirectSafety.Inv, OwnInv;
  }

  ghost predicate NeverPulls(t: Transport, steps: seq<Step>)
    requires CanRun(t, steps)
    decreases |steps|
  {
    steps == [] || (!Pulls(t, steps[0]) && NeverPulls(Apply(t, steps[0]), steps[1..]))
  }

  lemma {:induction false} SteadyUnlessPulled(t: Transport, step: Step)
    requires DirectSafety.Inv(t) && OwnInv(t) && Steady(t) && Enabled(t, step) && !Pulls(t, step)
    ensures Steady(Apply(t, step))
  {
    StepEffects(t, step);
    PullsAnOpenStream(t, step);
    var u := Apply(t, step);
    hide Apply, Effect, OpensAtMostOne, DirectSafety.Inv, Enabled, OwnInv, Ends;
    forall i, k | 0 <= i < |u.conns| && 0 <= k < |u.streams| && Open(u.conns[i], u.streams[k])
      ensures u.conns[i].cnx == u.streams[k].via
    {
      if i < |t.conns| {
        OpenKeepsId(t, step, i);
        StreamIsKnown(t, step, i, k);
        OpenBefore(t, step, i, u.streams[k]);
      } else {
        FreshIsNotOpen(step.id, u.streams[k]);
      }
    }
  }

  lemma OpenKeepsId(t: Transport, step: Step, i: nat)
    requires Enabled(t, step) && AllEffects(t, step) && i < |t.conns|
    ensures Apply(t, step).conns[i].id == t.conns[i].id
  {
    assert Effect(t, step, i, t.conns[i], Apply(t, step).conns[i]);
    hide Apply, Delay, OpensAtMostOne;
  }

  lemma {:induction false} PulledIsNotSteady(t: Transport, step: Step)
    requires DirectSafety.Inv(t) && OwnInv(t) && Steady(t) && Enabled(t, step) && Pulls(t, step)
    ensures !Steady(Apply(t, step))
  {
    PullsAnOpenStream(t, step);
    hide DirectSafety.Inv;
    var k :| 0 <= k < |t.streams| && Open(t.conns[step.ci], t.streams[k]);
    var c := t.conns[step.ci];
    assert Indexed(c) && c.cnx == t.streams[k].via;
    assert !IsLive(t, step.resolution.cnx);
    assert step.resolution.cnx !in c.live;
    assert Open(Apply(t, step).conns[step.ci], Apply(t, step).streams[k]);
  }

  lemma {:induction false} SteadyExactly(t: Transport, steps: seq<Step>)
    requires DirectSafety.Inv(t) && OwnInv(t) && Steady(t) && CanRun(t, steps)
    ensures Throughout(AllReachTheirOwn, t, steps) <==> NeverPulls(t, steps)
    decreases |steps|
  {
    TargetsFollow(t);
    hide DirectSafety.Inv, Apply, Enabled, Pulls, Steady, OwnInv, AllReachTheirOwn;
    if steps != [] {
      var u := Apply(t, steps[0]);
      DirectSafety.StepKeepsInv(t, steps[0]);
      StepKeepsOwnInv(t, steps[0]);
      if Pulls(t, steps[0]) {
        PulledIsNotSteady(t, steps[0]);
        TargetsFollow(u);
      } else {
        SteadyUnlessPulled(t, steps[0]);
        SteadyExactly(u, steps[1..]);
      }
    }
  }

  /** Until a generation wraps, a cancellation or a write with the handle of stream `k` reaches that
      stream on the QUIC connection it was opened on, or nothing at all. */
  ghost predicate ReachesItsOwn(t: Transport, k: nat)
    requires k < |t.streams|
  {
    var o := t.streams[k];
    forall i :: 0 <= i < |t.conns| && t.conns[i].id == o.id && |t.conns[i].made| < o.epoch + GENERATIONS ==>
      InvalidateTarget(t, o.handle).None? || (o.via.Some? && InvalidateTarget(t, o.handle) == Some((o.via.value, o.stream)))
  }

  ghost predicate AllReachTheirOwn(t: Transport) {
    forall k :: 0 <= k < |t.streams| ==> ReachesItsOwn(t, k)
  }

  /** Where the handle of stream `k` leads. */
  lemma {:induction false} TargetOf(t: Transport, i: nat, k: nat)
    requires DirectSafety.Inv(t) && OwnInv(t) && i < |t.conns| && k < |t.streams| && t.streams[k].id == t.conns[i].id
    ensures var (c, o) := (t.conns[i], t.streams[k]);
            && (|c.made| < o.epoch + GENERATIONS && InvalidateTarget(t, o.handle).Some? ==> Open(c, o))
            && (Open(c, o) ==> c.cnx.Some? && InvalidateTarget(t, o.handle) == Some((c.cnx.value, o.stream)))
  {
    var (c, o) := (t.conns[i], t.streams[k]);
    StreamEpoch(t, i, k);
    UnpackOfPack(c.id, o.epoch % GENERATIONS, o.stream);
    ConnByIdFinds(t.conns, HandleConnId(o.handle));
    hide DirectSafety.Inv, MakeHandle, HandleConnId, HandleGeneration, HandleStreamId;
    if o.epoch < |c.made| && o.epoch % GENERATIONS == c.generation {
      SameGenerationFarApart(o.epoch, |c.made|);
    }
  }

  lemma {:induction false} TargetsFollow(t: Transport)
    requires DirectSafety.Inv(t) && OwnInv(t)
    ensures AllReachTheirOwn(t) <==> Steady(t)
  {
    forall i, k | 0 <= i < |t.conns| && 0 <= k < |t.streams| && t.streams[k].id == t.conns[i].id
      ensures var (c, o) := (t.conns[i], t.streams[k]);
              && (|c.made| < o.epoch + GENERATIONS && InvalidateTarget(t, o.handle).Some? ==> Open(c, o))
              && (Open(c, o) ==> c.cnx.Some? && InvalidateTarget(t, o.handle) == Some((c.cnx.value, o.stream)))
    {
      TargetOf(t, i, k);
    }
    assert forall k :: 0 <= k < |t.streams| ==> t.streams[k].via.Some?;
    hide DirectSafety.Inv, InvalidateTarget, OwnInv;
    if AllReachTheirOwn(t) {
      forall i, k | 0 <= i < |t.conns| && 0 <= k < |t.streams| && Open(t.conns[i], t.streams[k])
        ensures t.conns[i].cnx == t.streams[k].via
      {
        assert ReachesItsOwn(t, k);
      }
    }
  }

  /** At every point of a run every opened stream can be cancelled and written to only where it was
      opened, up to generation wrap, if and only if no lookup was answered with a new QUIC connection
      while its endpoint was ready and had used a stream number. */
  lemma CancellationHitsItsOwnStream(steps: seq<Step>)
    requires CanRun(Initial(), steps)
    ensures Throughout(AllReachTheirOwn, Initial(), steps) <==> NeverPulls(Initial(), steps)
  {
    InitialOwnInv();
    SteadyExactly(Initial(), steps);
  }

  /** A write that succeeds went where a cancellation with the same handle goes. */
  lemma {:induction false} WritesFollowCancellations(t: Transport, h: Word, w: WriteOutcome, now: nat)
    ensures SendExisting(t, h, w, now).1.Ok? <==> !t.closed && InvalidateTarget(t, h).Some? && w.Written?
    ensures SendExisting(t, h, w, now).1.Ok? ==>
              && SendExisting(t, h, w, now) == (t, Ok(h))
              && ConnById(t.conns, HandleConnId(h)).Some?
              && var ci := ConnById(t.conns, HandleConnId(h)).value;
              && ci < |t.conns| && WrittenTo(t.conns[ci], Some(h), w) == InvalidateTarget(t, h)
  {
    ConnByIdFinds(t.conns, HandleConnId(h));
    PackOfUnpack(h);
    hide MakeHandle, HandleConnId, HandleGeneration, HandleStreamId, Fail;
  }

  // ---- the QUIC connection in hand and the one that was connected ----

  /** A ready connection holds the QUIC connection whose connected event made it ready. */
  ghost predicate Aligned(c: Conn) {
    c.state == Ready ==> c.cnx.Some? && Current(c, c.cnx.value)
  }

  ghost predicate AllAligned(t: Transport) {
    forall i :: 0 <= i < |t.conns| ==> Aligned(t.conns[i])
  }

  /** A lookup answered while ready, or a connected event of a QUIC connection that is not the one in hand. */
  predicate Swaps(t: Transport, step: Step)
    requires Enabled(t, step)
  {
    match step
    case DoResolved(ci, r, _) => t.conns[ci].state == Ready && r.Established?
    case DoConnected(ci, from) => t.conns[ci].cnx != Some(from)
    case _ => false
  }

  ghost predicate NeverSwaps(t: Transport, steps: seq<Step>)
    requires CanRun(t, steps)
    decreases |steps|
  {
    steps == [] || (!Swaps(t, steps[0]) && NeverSwaps(Apply(t, steps[0]), steps[1..]))
  }

  lemma {:induction false} StepAligns(t: Transport, step: Step)
    requires OwnInv(t) && AllAligned(t) && Enabled(t, step)
    ensures AllAligned(Apply(t, step)) <==> !Swaps(t, step)
  {
    StepEffects(t, step);
    var u := Apply(t, step);
    forall i | 0 <= i < |t.conns|
      ensures Aligned(u.conns[i]) <==> !((step.DoResolved? || step.DoConnected?) && step.ci == i && Swaps(t, step))
    {
      assert Effect(t, step, i, t.conns[i], u.conns[i]) && Aligned(t.conns[i]) && Indexed(t.conns[i]);
      if step.DoResolved? && step.ci == i && step.resolution.Established? {
        assert !IsLive(t, step.resolution.cnx);
        assert step.resolution.cnx !in t.conns[i].live;
      }
      hide Apply, Delay, OwnInv, AllAligned;
    }
    hide Apply, Effect, Indexed, OpensAtMostOne;
    if Swaps(t, step) {
      assert !Aligned(u.conns[step.ci]);
    }
  }

  lemma {:induction false} AlignedExactly(t: Transport, steps: seq<Step>)
    requires DirectSafety.Inv(t) && OwnInv(t) && AllAligned(t) && CanRun(t, steps)
    ensures Throughout(AllAligned, t, steps) <==> NeverSwaps(t, steps)
    decreases |steps|
  {
    hide DirectSafety.Inv, Apply, Enabled, Swaps, OwnInv, AllAligned;
    if steps != [] {
      DirectSafety.StepKeepsInv(t, steps[0]);
      StepKeepsOwnInv(t, steps[0]);
      StepAligns(t, steps[0]);
      if !Swaps(t, steps[0]) {
        AlignedExactly(Apply(t, steps[0]), steps[1..]);
      }
    }
  }

  /** At every point of a run every ready connection holds the QUIC connection that was connected last,
      if and only if no lookup was answered with a new one while ready and no connected event came
      from another QUIC connection than the one in hand. */
  lemma AlignmentIsExact(steps: seq<Step>)
    requires CanRun(Initial(), steps)
    ensures Throughout(AllAligned, Initial(), steps) <==> NeverSwaps(Initial(), steps)
  {
    InitialOwnInv();
    AlignedExactly(Initial(), steps);
  }

  // ---- a run that loses a stream ----

  /** Endpoint 0 fails on QUIC connection 6 while a retry's lookup is under way; 6 closes, a second
      retry starts a second lookup; the first answer gives connection 7, which is connected and carries a
      stream; then the second answer replaces it. */
  function PullTail(): seq<Step> {
    RetryTwice() + [DoOpen([Written], [], 900_000), DoResolved(0, Established(8), 900_000)]
  }

  function RetryTwice(): seq<Step> {
    [DoEnsure(0, 200_000, true), DoClose(0, 6, 300_000), DoEnsure(0, 900_000, true), DoResolved(0, Established(7), 900_000),
     DoConnected(0, 7)]
  }

  function RefusedRun(): seq<Step> {
    [DoCreate(0), DoEnsure(0, 0, true), DoResolved(0, Established(6), 0), DoConnected(0, 6), DoOpen([Rejected], [], 0)]
  }

  function PullRun(): seq<Step> {
    RefusedRun() + PullTail()
  }

  /** After the refused open. */
  function Refusing(): Transport {
    OneConn(Conn(0, 1, Backoff, Some(6), 1, 100_000, 4, false, [6], {6}, 0, {}, [], 0)).(pending := [Failure(0, 1, 1)])
  }

  function Carrying(cnx: Cnx, live: set<Cnx>, resolving: nat, next: StreamId): Transport {
    Refusing().(conns := [Conn(0, 2, Ready, Some(cnx), 0, 0, next, false, [6, 7], live, resolving, {}, [], 0)])
  }

  function PulledStream(): OpenedStream {
    OpenedStream(0, 2, 0, MakeHandle(0, 2, 0), Some(7))
  }

  /** The first four steps of the tail: ready on 7, with one lookup still out. */
  lemma {:induction false} RetriedTwice()
    ensures CanRun(Refusing(), RetryTwice()) && Run(Refusing(), RetryTwice()) == Carrying(7, {7}, 1, 0)
  {
    var t0 := Refusing();
    var a := Conn(0, 1, Connecting, Some(6), 1, 100_000, 4, true, [6], {6}, 1, {}, [], 0);
    var b := Conn(0, 1, Backoff, None, 2, 500_000, 4, true, [6], {}, 1, {}, [], 0);
    var c := b.(state := Connecting, resolving := 2);
    var d := b.(state := Connecting, cnx := Some(7), held := false, live := {7});
    hide Apply, Enabled, Delay;
    FirstRetry(a, b);
    SecondRetry(b, c, d);
    FirstAnswer(d);
    var steps := RetryTwice();
    RunStep(t0.(conns := [d]), steps[4], []);
    RunStep(t0.(conns := [c]), steps[3], [steps[4]]);
    RunStep(t0.(conns := [b]), steps[2], [steps[3], steps[4]]);
    RunStep(t0.(conns := [a]), steps[1], [steps[2], steps[3], steps[4]]);
    RunStep(t0, steps[0], [steps[1], steps[2], steps[3], steps[4]]);
    assert steps == [steps[0]] + [steps[1], steps[2], steps[3], steps[4]];
  }

  lemma FirstRetry(a: Conn, b: Conn)
    requires a == Conn(0, 1, Connecting, Some(6), 1, 100_000, 4, true, [6], {6}, 1, {}, [], 0)
    requires b == Conn(0, 1, Backoff, None, 2, 500_000, 4, true, [6], {}, 1, {}, [], 0)
    ensures var (t, u) := (Refusing(), Refusing().(conns := [a])); var step := DoEnsure(0, 200_000, true); Enabled(t, step) && Apply(t, step) == u
    ensures var (t, u) := (Refusing().(conns := [a]), Refusing().(conns := [b])); var step := DoClose(0, 6, 300_000);
            Enabled(t, step) && Apply(t, step) == u
  {
    BackoffDoubles(1);
    assert Delay(1) == 100_000 && Delay(2) == 200_000;
    hide Delay;
    assert {6} - {6} == {};
  }

  lemma SecondRetry(b: Conn, c: Conn, d: Conn)
    requires b == Conn(0, 1, Backoff, None, 2, 500_000, 4, true, [6], {}, 1, {}, [], 0)
    requires c == b.(state := Connecting, resolving := 2) && d == b.(state := Connecting, cnx := Some(7), held := false, live := {7})
    ensures var (t, u) := (Refusing().(conns := [b]), Refusing().(conns := [c])); var step := DoEnsure(0, 900_000, true);
            Enabled(t, step) && Apply(t, step) == u
    ensures var (t, u) := (Refusing().(conns := [c]), Refusing().(conns := [d])); var step := DoResolved(0, Established(7), 900_000);
            Enabled(t, step) && Apply(t, step) == u
  {
    hide Delay;
    assert {} + {7} == {7};
  }

  lemma FirstAnswer(d: Conn)
    requires d == Conn(0, 1, Connecting, Some(7), 2, 500_000, 4, false, [6], {7}, 1, {}, [], 0)
    ensures var t := Refusing().(conns := [d]); var step := DoConnected(0, 7); Enabled(t, step) && Apply(t, step) == Carrying(7, {7}, 1, 0)
  {
    hide Delay;
    assert [6] + [7] == [6, 7];
  }

  /** The stream opened on 7. */
  lemma OpensOnSeven()
    ensures var (t, step) := (Carrying(7, {7}, 1, 0), DoOpen([Written], [], 900_000));
            Enabled(t, step) && Apply(t, step) == Carrying(7, {7}, 1, 4).(streams := [PulledStream()])
  {
    hide MakeHandle;
    var t := Carrying(7, {7}, 1, 0);
    assert Turn(1, 0, 0) == 0;
    assert SendOn(t.conns[0], None, OutcomeAt([Written], 0)).1 == Ok(MakeHandle(0, 2, 0));
    assert TryFrom(t, 0, 0, [Written], 900_000, ConnectionFailed) == (OpenedOn(t, 0, Written, MakeHandle(0, 2, 0)), Ok(MakeHandle(0, 2, 0)));
    assert [] + [PulledStream()] == [PulledStream()];
  }

  /** The late answer. */
  lemma PullsToEight()
    ensures var (t, step) := (Carrying(7, {7}, 1, 4).(streams := [PulledStream()]), DoResolved(0, Established(8), 900_000));
            && Enabled(t, step) && Pulls(t, step)
            && Apply(t, step) == Carrying(8, {7, 8}, 0, 4).(streams := [PulledStream()])
  {
    hide Delay, MakeHandle;
    assert {7} + {8} == {7, 8};
  }

  /** Where the stream's handle leads before and after. */
  lemma PulledTargets()
    ensures var h := PulledStream().handle;
            && InvalidateTarget(Carrying(7, {7}, 1, 4).(streams := [PulledStream()]), h) == Some((7, 0))
            && InvalidateTarget(Carrying(8, {7, 8}, 0, 4).(streams := [PulledStream()]), h) == Some((8, 0))
  {
    UnpackOfPack(0, 2, 0);
    hide MakeHandle, HandleConnId, HandleGeneration, HandleStreamId;
    var h := PulledStream().handle;
    assert ConnById(Carrying(7, {7}, 1, 4).conns, 0) == Some(0);
    assert ConnById(Carrying(8, {7, 8}, 0, 4).conns, 0) == Some(0);
    assert HandleConnId(h) == 0;
  }

  /** The stream was opened on connection 7, which is alive; its handle leads to stream 0 of connection 8,
      so it can be neither cancelled nor written to any more. */
  lemma {:induction false} LateAnswerTakesTheStream()
    ensures CanRun(Initial(), PullRun()) && !NeverPulls(Initial(), PullRun())
    ensures var t := Run(Initial(), PullRun());
            && !t.closed && |t.conns| == 1 && t.conns[0].state == Ready && t.conns[0].made == [6, 7] && t.conns[0].live == {7, 8}
            && t.streams == [PulledStream()] && PulledStream().via == Some(7)
            && InvalidateTarget(t, PulledStream().handle) == Some((8, 0)) && !AllReachTheirOwn(t)
  {
    RefusingReached();
    PullTailRuns();
    PulledTargets();
    hide Apply, Enabled, PullTail, RefusedRun, MakeHandle;
    RunConcat(Initial(), RefusedRun(), PullTail());
    var t := Run(Initial(), PullRun());
    assert t == Carrying(8, {7, 8}, 0, 4).(streams := [PulledStream()]);
    assert !ReachesItsOwn(t, 0) by { assert t.conns[0].id == t.streams[0].id && |t.conns[0].made| < t.streams[0].epoch + GENERATIONS; }
    if Throughout(AllReachTheirOwn, Initial(), PullRun()) {
      ThroughoutEnds(AllReachTheirOwn, Initial(), PullRun());
      assert false;
    }
    CancellationHitsItsOwnStream(PullRun());
  }

  /** What holds throughout holds at the end. */
  lemma {:induction false} ThroughoutEnds(P: Transport -> bool, t: Transport, steps: seq<Step>)
    requires CanRun(t, steps) && Throughout(P, t, steps)
    ensures P(Run(t, steps))
    decreases |steps|
  {
    if steps != [] {
      ThroughoutEnds(P, Apply(t, steps[0]), steps[1..]);
    }
  }

  lemma {:induction false} RefusingReached()
    ensures CanRun(Initial(), RefusedRun()) && Run(Initial(), RefusedRun()) == Refusing()
  {
    var t4 := OneConn(Conn(0, 1, Ready, Some(6), 0, 0, 0, false, [6], {6}, 0, {}, [], 0));
    RefusesOnSix(t4);
    FirstConnect();
    var a := [DoCreate(0), DoEnsure(0, 0, true), DoResolved(0, Established(6), 0), DoConnected(0, 6)];
    assert a + [DoOpen([Rejected], [], 0)] == RefusedRun();
    hide *;
    RunConcat(Initial(), a, [DoOpen([Rejected], [], 0)]);
  }

  lemma {:induction false} RefusesOnSix(t4: Transport)
    requires t4 == OneConn(Conn(0, 1, Ready, Some(6), 0, 0, 0, false, [6], {6}, 0, {}, [], 0))
    ensures CanRun(t4, [DoOpen([Rejected], [], 0)]) && Run(t4, [DoOpen([Rejected], [], 0)]) == Refusing()
  {
    hide Apply, Enabled, SendNew;
    RefusedOpen(t4, Refusing());
    RefusedOpenStep(t4);
    RunNothing(Refusing());
  }

  lemma {:induction false} PullTailRuns()
    ensures CanRun(Refusing(), PullTail())
    ensures Run(Refusing(), PullTail()) == Carrying(8, {7, 8}, 0, 4).(streams := [PulledStream()])
  {
    RetriedTwice();
    OpensOnSeven();
    PullsToEight();
    hide Apply, Enabled, MakeHandle, Refusing, Carrying, Pulls, RetryTwice;
    var b := [DoOpen([Written], [], 900_000), DoResolved(0, Established(8), 900_000)];
    var t6 := Carrying(7, {7}, 1, 4).(streams := [PulledStream()]);
    RunStep(t6, b[1], []);
    RunStep(Carrying(7, {7}, 1, 0), b[0], [b[1]]);
    assert b == [b[0]] + [b[1]];
    RunConcat(Refusing(), RetryTwice(), b);
  }
}
