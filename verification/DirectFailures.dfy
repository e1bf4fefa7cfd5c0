/** How many failures of one connection wait at the same time. The queue drops a second notice of the
    same generation only; here is exactly when one connection has several. */
module DirectFailures {
  import opened Options
  import opened Words
  import opened StreamHandles
  import ArenaModel
  import opened BackendConnections
  import opened DirectModel
  import DirectSafety
  import opened DirectEffects
  import opened DirectTheorems
  import opened DirectOwnership

  /** No two failures of one connection are queued. */
  ghost predicate OneEach(t: Transport) {
    forall f, g :: f in t.pending && g in t.pending && f.id == g.id ==> f == g
  }

  // ---- which connections a step signals ----

  /** Nobody is willing from `offset` to `k` places after the cursor. */
  predicate NoneUpTo(t: Transport, w: seq<WriteOutcome>, cursor: nat, offset: nat, k: nat)
    requires t.conns != []
  {
    forall m :: offset <= m <= k ==> !Willing(t, w, Turn(|t.conns|, cursor, m))
  }

  /** Connection `i` is ready, and its turn comes before anybody willing. */
  ghost predicate TriedInVain(t: Transport, w: seq<WriteOutcome>, cursor: nat, offset: nat, i: nat)
    requires i < |t.conns|
  {
    t.conns[i].state == Ready
    && exists k: nat :: offset <= k < |t.conns| && Turn(|t.conns|, cursor, k) == i && NoneUpTo(t, w, cursor, offset, k)
  }

  /** The step ends the generation of connection `i` with a notice. */
  ghost predicate Signals(t: Transport, step: Step, i: nat)
    requires Enabled(t, step) && i < |t.conns|
  {
    match step
    case DoSend(h, w, _) =>
      && !t.closed && ConnById(t.conns, HandleConnId(h)) == Some(i) && t.conns[i].state == Ready
      && (t.conns[i].cnx.None? || w.NotConnected?)
    case DoOpen(ws, _, _) => !t.closed && TriedInVain(t, ws, t.next, 0, i)
    case _ => Ends(t, step) && step.ci == i
  }

  /** A failure the step adds: signalled, and no notice of its generation queued yet. */
  ghost predicate Added(t: Transport, step: Step, f: Failure)
    requires Enabled(t, step)
  {
    exists i: nat :: i < |t.conns| && Signals(t, step, i) && f == FailureOf(t.conns[i]) && !KeyQueued(t.pending, f.Key())
  }

  lemma {:induction false} AfterSignal(t: Transport, f: Failure, key: ConnKey)
    ensures forall g :: g in Signal(t, f).pending <==> g in t.pending || (g == f && !KeyQueued(t.pending, f.Key()))
    ensures KeyQueued(Signal(t, f).pending, key) <==> KeyQueued(t.pending, key) || f.Key() == key
  {
    hide ConnectionKey;
    var u := Signal(t, f);
    DirectSafety.KeyQueuedMeans(t.pending, key);
    DirectSafety.KeyQueuedMeans(u.pending, key);
    DirectSafety.KeyQueuedMeans(t.pending, f.Key());
    if !KeyQueued(t.pending, f.Key()) {
      assert u.pending[|t.pending|] == f;
      assert forall k :: 0 <= k < |t.pending| ==> u.pending[k] == t.pending[k];
    }
  }

  // ---- a failed attempt to open a stream ----

  /** A failure that trying the connections from `offset` on adds. */
  ghost predicate AddedInTurn(t: Transport, w: seq<WriteOutcome>, cursor: nat, offset: nat, f: Failure) {
    exists i: nat :: i < |t.conns| && TriedInVain(t, w, cursor, offset, i) && f == FailureOf(t.conns[i]) && !KeyQueued(t.pending, f.Key())
  }

  ghost predicate DistinctIds(conns: seq<Conn>) {
    forall i, j :: 0 <= i < j < |conns| ==> conns[i].id != conns[j].id
  }

  lemma SkippedTurn(t: Transport, w: seq<WriteOutcome>, cursor: nat, offset: nat, i: nat)
    requires i < |t.conns| && offset < |t.conns| && t.conns[Turn(|t.conns|, cursor, offset)].state != Ready
    ensures TriedInVain(t, w, cursor, offset, i) <==> TriedInVain(t, w, cursor, offset + 1, i)
  {
    hide Turn;
    var n := |t.conns|;
    if t.conns[i].state == Ready {
      forall k: nat | offset + 1 <= k < n && Turn(n, cursor, k) == i
        ensures NoneUpTo(t, w, cursor, offset, k) <==> NoneUpTo(t, w, cursor, offset + 1, k)
      {
      }
    }
  }

  lemma WillingTurn(t: Transport, w: seq<WriteOutcome>, cursor: nat, offset: nat, i: nat)
    requires i < |t.conns| && offset < |t.conns| && Willing(t, w, Turn(|t.conns|, cursor, offset))
    ensures !TriedInVain(t, w, cursor, offset, i)
  {
    hide Turn, Willing;
  }

  /** `v` is `t` with connection `ci` no longer ready. */
  ghost predicate FailedAt(t: Transport, v: Transport, ci: nat) {
    && ci < |t.conns| && |v.conns| == |t.conns| && v.conns == t.conns[ci := v.conns[ci]]
    && v.conns[ci].state == Backoff && v.conns[ci].id == t.conns[ci].id
    && v.pending == Signal(t, FailureOf(t.conns[ci])).pending
  }

  lemma FailedTurn(t: Transport, v: Transport, w: seq<WriteOutcome>, cursor: nat, offset: nat, i: nat)
    requires i < |t.conns| && offset < |t.conns| && FailedAt(t, v, Turn(|t.conns|, cursor, offset))
    requires t.conns[Turn(|t.conns|, cursor, offset)].state == Ready && !Willing(t, w, Turn(|t.conns|, cursor, offset))
    ensures TriedInVain(t, w, cursor, offset, i) <==> i == Turn(|t.conns|, cursor, offset) || TriedInVain(v, w, cursor, offset + 1, i)
  {
    hide Turn, Signal;
    var n := |t.conns|;
    var ci := Turn(n, cursor, offset);
    assert forall j :: Willing(v, w, j) <==> Willing(t, w, j);
    hide Willing;
    if i == ci {
      assert NoneUpTo(t, w, cursor, offset, offset);
    } else {
      forall k: nat | offset + 1 <= k < n && Turn(n, cursor, k) == i
        ensures NoneUpTo(t, w, cursor, offset, k) <==> NoneUpTo(v, w, cursor, offset + 1, k)
      {
      }
    }
  }

  /** Failing one connection and then the rest. */
  lemma {:induction false} FailedAndTheRest(t: Transport, v: Transport, w: seq<WriteOutcome>, cursor: nat, offset: nat, f: Failure)
    requires offset < |t.conns| && DistinctIds(t.conns) && FailedAt(t, v, Turn(|t.conns|, cursor, offset))
    requires t.conns[Turn(|t.conns|, cursor, offset)].state == Ready && !Willing(t, w, Turn(|t.conns|, cursor, offset))
    ensures f in v.pending || AddedInTurn(v, w, cursor, offset + 1, f) <==> f in t.pending || AddedInTurn(t, w, cursor, offset, f)
  {
    hide Signal, Willing, Turn, TriedInVain, ConnectionKey;
    var ci := Turn(|t.conns|, cursor, offset);
    var g := FailureOf(t.conns[ci]);
    AfterSignal(t, g, f.Key());
    FailedTurn(t, v, w, cursor, offset, ci);
    forall i: nat | i < |t.conns| && i != ci && f == FailureOf(t.conns[i])
      ensures f == FailureOf(v.conns[i]) && (KeyQueued(v.pending, f.Key()) <==> KeyQueued(t.pending, f.Key()))
      ensures TriedInVain(t, w, cursor, offset, i) <==> TriedInVain(v, w, cursor, offset + 1, i)
    {
      FailedTurn(t, v, w, cursor, offset, i);
      KeysAreDistinct(g.id, g.generation, f.id, f.generation);
    }
    assert !TriedInVain(v, w, cursor, offset + 1, ci) by { NotReadyIsNotTried(v, w, cursor, offset + 1, ci); }
  }

  lemma NotReadyIsNotTried(t: Transport, w: seq<WriteOutcome>, cursor: nat, offset: nat, i: nat)
    requires i < |t.conns| && t.conns[i].state != Ready
    ensures !TriedInVain(t, w, cursor, offset, i)
  {
  }

  lemma {:induction false} TryQueues(t: Transport, cursor: nat, offset: nat, w: seq<WriteOutcome>, now: nat, last: TransportError, f: Failure)
    requires t.conns != [] && CanOpen(t) && DistinctIds(t.conns)
    ensures f in TryFrom(t, cursor, offset, w, now, last).0.pending <==> f in t.pending || AddedInTurn(t, w, cursor, offset, f)
    decreases |t.conns| - offset
  {
    hide Turn, TriedInVain, MakeHandle, FailedOn, FailedAt, DistinctIds, KeyQueued;
    if offset >= |t.conns| {
      NobodyLeft(t, w, cursor, offset);
    } else {
      var ci := Turn(|t.conns|, cursor, offset);
      if t.conns[ci].state != Ready {
        TryQueues(t, cursor, offset + 1, w, now, last, f);
        forall i: nat | i < |t.conns| ensures TriedInVain(t, w, cursor, offset, i) <==> TriedInVain(t, w, cursor, offset + 1, i) {
          SkippedTurn(t, w, cursor, offset, i);
        }
      } else {
        match SendOn(t.conns[ci], None, OutcomeAt(w, ci)).1
        case Ok(h) =>
          forall i: nat | i < |t.conns| ensures !TriedInVain(t, w, cursor, offset, i) {
            WillingTurn(t, w, cursor, offset, i);
          }
        case Err(e) =>
          var v := FailedOn(t, ci, OutcomeAt(w, ci), now);
          FailedOnTouches(t, ci, OutcomeAt(w, ci), now);
          FailedOnFails(t, ci, OutcomeAt(w, ci), now);
          TryQueues(v, cursor, offset + 1, w, now, e, f);
          FailedAndTheRest(t, v, w, cursor, offset, f);
      }
    }
  }

  lemma NobodyLeft(t: Transport, w: seq<WriteOutcome>, cursor: nat, offset: nat)
    requires offset >= |t.conns|
    ensures forall i: nat :: i < |t.conns| ==> !TriedInVain(t, w, cursor, offset, i)
  {
  }

  lemma FailedOnFails(t: Transport, ci: nat, w: WriteOutcome, now: nat)
    requires ci < |t.conns| && t.conns[ci].nextStream < STREAM_IDS
    ensures FailedAt(t, FailedOn(t, ci, w, now), ci)
    ensures DistinctIds(t.conns) ==> DistinctIds(FailedOn(t, ci, w, now).conns)
  {
    hide Delay, MakeHandle, KeyQueued;
  }

  // ---- every step ----

  /** One connection is signalled. */
  lemma OneSignalled(t: Transport, step: Step, ci: nat, f: Failure)
    requires Enabled(t, step) && ci < |t.conns| && forall i: nat :: i < |t.conns| ==> (Signals(t, step, i) <==> i == ci)
    ensures f in Signal(t, FailureOf(t.conns[ci])).pending <==> f in t.pending || Added(t, step, f)
  {
    hide Signal, Signals, ConnectionKey;
    AfterSignal(t, FailureOf(t.conns[ci]), f.Key());
  }

  lemma CallbackSignals(t: Transport, step: Step)
    requires Enabled(t, step) && Ends(t, step)
    ensures step.ci < |t.conns| && forall i: nat :: i < |t.conns| ==> (Signals(t, step, i) <==> i == step.ci)
    ensures Apply(t, step).pending == Signal(t, FailureOf(t.conns[step.ci])).pending
  {
    hide Delay, KeyQueued, ArenaModel.Chunks, MakeHandle;
  }

  lemma QuietCallback(t: Transport, step: Step)
    requires Enabled(t, step) && !Ends(t, step) && !step.DoSend? && !step.DoOpen? && !step.DoReceive? && !step.DoShutdown?
    ensures Apply(t, step).pending == t.pending
    ensures forall i: nat :: i < |t.conns| ==> !Signals(t, step, i)
  {
    hide Delay, KeyQueued, ArenaModel.Chunks, MakeHandle;
  }

  lemma {:induction false} SendSignals(t: Transport, h: Word, w: WriteOutcome, now: nat, f: Failure)
    ensures f in SendExisting(t, h, w, now).0.pending <==> f in t.pending || Added(t, DoSend(h, w, now), f)
  {
    hide Delay, KeyQueued, HandleConnId, HandleGeneration, HandleStreamId, MakeHandle, Signal;
    ConnByIdFinds(t.conns, HandleConnId(h));
    var step := DoSend(h, w, now);
    match ConnById(t.conns, HandleConnId(h))
    case None =>
    case Some(ci) =>
      if !t.closed && t.conns[ci].state == Ready && (t.conns[ci].cnx.None? || w.NotConnected?) {
        OneSignalled(t, step, ci, f);
      }
  }

  /** What is queued after a step was queued before, or is the notice of a generation the step ended. */
  lemma {:induction false} StepQueues(t: Transport, step: Step, f: Failure)
    requires DistinctIds(t.conns) && Enabled(t, step) && !step.DoReceive? && !step.DoShutdown?
    ensures f in Apply(t, step).pending <==> f in t.pending || Added(t, step, f)
  {
    if Ends(t, step) {
      CallbackSignals(t, step);
      hide Apply, Signal, Signals, Enabled;
      OneSignalled(t, step, step.ci, f);
    } else {
      match step
      case DoSend(h, w, now) =>
        SendSignals(t, h, w, now, f);
        hide SendExisting;
      case DoOpen(ws, starts, now) =>
        OpenQueues(t, ws, starts, now, f);
        DefOpens(t, ws, starts, now);
        hide Apply, SendNew;
      case _ =>
        QuietCallback(t, step);
        hide Apply, Signals, Enabled;
    }
  }

  lemma DefOpens(t: Transport, ws: seq<WriteOutcome>, starts: seq<bool>, now: nat)
    requires CanOpen(t)
    ensures Apply(t, DoOpen(ws, starts, now)) == SendNew(t, ws, starts, now).0
  {
    hide SendNew;
  }

  lemma {:induction false} OpenQueues(t: Transport, ws: seq<WriteOutcome>, starts: seq<bool>, now: nat, f: Failure)
    requires CanOpen(t) && DistinctIds(t.conns)
    ensures f in SendNew(t, ws, starts, now).0.pending <==> f in t.pending || Added(t, DoOpen(ws, starts, now), f)
  {
    hide TryFrom, TriedInVain, EnsureAt, KeyQueued;
    if !t.closed && t.conns != [] {
      TryQueues(t, t.next, 0, ws, now, ConnectionFailed, f);
      if i: nat :| i < |t.conns| && TriedInVain(t, ws, t.next, 0, i) && f == FailureOf(t.conns[i]) && !KeyQueued(t.pending, f.Key()) {
        assert Signals(t, DoOpen(ws, starts, now), i);
      }
    }
  }

  // ---- every run ----

  /** The step ends a generation of a connection with a notice while the notice of another generation
      of it is still queued. */
  ghost predicate Doubles(t: Transport, step: Step)
    requires Enabled(t, step)
  {
    exists i: nat, f :: i < |t.conns| && Signals(t, step, i) && DiffersFrom(t.conns[i], f) && f in t.pending
  }

  /** The notice is of this connection but of another generation than the current one. */
  predicate DiffersFrom(c: Conn, f: Failure) {
    f.id == c.id && f.generation != c.generation
  }

  ghost predicate NeverDoubles(t: Transport, steps: seq<Step>)
    requires CanRun(t, steps)
    decreases |steps|
  {
    steps == [] || (!Doubles(t, steps[0]) && NeverDoubles(Apply(t, steps[0]), steps[1..]))
  }

  lemma {:induction false} KeyMeansGeneration(pending: seq<Failure>, g: Failure)
    ensures KeyQueued(pending, g.Key()) <==> exists f :: f in pending && f.id == g.id && f.generation == g.generation
  {
    hide ConnectionKey;
    DirectSafety.KeyQueuedMeans(pending, g.Key());
    forall k | 0 <= k < |pending|
      ensures pending[k].Key() == g.Key() <==> pending[k].id == g.id && pending[k].generation == g.generation
    {
      KeysAreDistinct(pending[k].id, pending[k].generation, g.id, g.generation);
    }
  }

  lemma {:induction false} DoublingBreaks(t: Transport, step: Step)
    requires DistinctIds(t.conns) && OneEach(t) && Enabled(t, step) && !step.DoReceive? && !step.DoShutdown? && Doubles(t, step)
    ensures !OneEach(Apply(t, step))
  {
    hide Apply, Enabled, Signals, ConnectionKey;
    var i: nat, f :| i < |t.conns| && Signals(t, step, i) && DiffersFrom(t.conns[i], f) && f in t.pending;
    var g := FailureOf(t.conns[i]);
    assert !KeyQueued(t.pending, g.Key()) by { KeyMeansGeneration(t.pending, g); }
    assert Added(t, step, g);
    StepQueues(t, step, f);
    StepQueues(t, step, g);
  }

  lemma {:induction false} NothingElseBreaks(t: Transport, step: Step)
    requires DistinctIds(t.conns) && OneEach(t) && Enabled(t, step) && !step.DoReceive? && !step.DoShutdown? && !Doubles(t, step)
    ensures OneEach(Apply(t, step))
  {
    hide Apply, Enabled, Signals, ConnectionKey;
    var u := Apply(t, step);
    forall f, g | f in u.pending && g in u.pending && f.id == g.id ensures f == g {
      StepQueues(t, step, f);
      StepQueues(t, step, g);
      if f !in t.pending && g in t.pending {
        NotAdded(t, step, f, g);
      } else if f in t.pending && g !in t.pending {
        NotAdded(t, step, g, f);
      }
    }
  }

  /** A notice the step adds is the only one of its connection. */
  lemma NotAdded(t: Transport, step: Step, f: Failure, g: Failure)
    requires Enabled(t, step) && !Doubles(t, step) && Added(t, step, f) && g in t.pending
    ensures f.id != g.id
  {
    hide Apply, Enabled, Signals, ConnectionKey;
    var i: nat :| i < |t.conns| && Signals(t, step, i) && f == FailureOf(t.conns[i]) && !KeyQueued(t.pending, f.Key());
    if f.id == g.id {
      assert !DiffersFrom(t.conns[i], g);
      KeyMeansGeneration(t.pending, f);
    }
  }

  lemma {:induction false} TakingKeepsOneEach(t: Transport, step: Step)
    requires OneEach(t) && Enabled(t, step) && (step.DoReceive? || step.DoShutdown?)
    ensures OneEach(Apply(t, step)) && !Doubles(t, step)
  {
    hide ConnectionKey;
    FirstQueuedFinds(t.conns);
    var u := Apply(t, step);
    forall f | f in u.pending ensures f in t.pending {
    }
  }

  lemma {:induction false} StepKeepsOneEach(t: Transport, step: Step)
    requires DistinctIds(t.conns) && OneEach(t) && Enabled(t, step)
    ensures OneEach(Apply(t, step)) <==> !Doubles(t, step)
  {
    hide Apply, Enabled, Doubles, OneEach, DistinctIds;
    if step.DoReceive? || step.DoShutdown? {
      TakingKeepsOneEach(t, step);
    } else if Doubles(t, step) {
      DoublingBreaks(t, step);
    } else {
      NothingElseBreaks(t, step);
    }
  }

  lemma InvHasDistinctIds(t: Transport)
    requires DirectSafety.Inv(t)
    ensures DistinctIds(t.conns)
  {
    hide DirectSafety.PendingInv, DirectSafety.OncePerFailure, DirectSafety.SurfacedInv, DirectSafety.StreamsInv,
         DirectSafety.UnreportedInv, DirectSafety.AllReported, ConnInv;
  }

  lemma {:induction false} OneEachExactly(t: Transport, steps: seq<Step>)
    requires DirectSafety.Inv(t) && OneEach(t) && CanRun(t, steps)
    ensures Throughout(OneEach, t, steps) <==> NeverDoubles(t, steps)
    decreases |steps|
  {
    hide DirectSafety.Inv, Apply, Enabled, Doubles, OneEach;
    if steps != [] {
      DirectSafety.StepKeepsInv(t, steps[0]);
      InvHasDistinctIds(t);
      StepKeepsOneEach(t, steps[0]);
      if !Doubles(t, steps[0]) {
        OneEachExactly(Apply(t, steps[0]), steps[1..]);
      }
    }
  }

  /** At every point of a run each connection has at most one failure queued if and only if no generation
      ended with a notice while the notice of another generation of the same connection was queued. */
  lemma {:induction false} OneFailureEachExactly(steps: seq<Step>)
    requires CanRun(Initial(), steps)
    ensures Throughout(OneEach, Initial(), steps) <==> NeverDoubles(Initial(), steps)
  {
    InitialInv();
    OneEachExactly(Initial(), steps);
  }

  /** Then the queue has room for all in one place per connection. */
  lemma {:induction false} OneEachFits(t: Transport)
    requires DirectSafety.Inv(t) && OneEach(t)
    ensures |t.pending| <= |t.conns|
  {
    hide DirectSafety.SurfacedInv, DirectSafety.StreamsInv, DirectSafety.UnreportedInv, DirectSafety.AllReported, ConnInv, Gone;
    forall i, j | 0 <= i < j < |t.pending| ensures t.pending[i].id != t.pending[j].id {
      assert t.pending[i] in t.pending && t.pending[j] in t.pending;
    }
    forall k | 0 <= k < |t.pending| ensures HasConn(t.conns, t.pending[k].id) {
      assert DirectSafety.Over(t.conns, t.pending[k]);
    }
    DistinctIdsFit(t.pending, t.conns);
  }

  ghost predicate HasConn(conns: seq<Conn>, id: ConnId) {
    exists i :: 0 <= i < |conns| && conns[i].id == id
  }

  lemma {:induction false} DistinctIdsFit(pending: seq<Failure>, conns: seq<Conn>)
    requires forall i, j :: 0 <= i < j < |pending| ==> pending[i].id != pending[j].id
    requires forall k :: 0 <= k < |pending| ==> HasConn(conns, pending[k].id)
    ensures |pending| <= |conns|
  {
    if pending != [] {
      assert HasConn(conns, pending[0].id);
      var i :| 0 <= i < |conns| && conns[i].id == pending[0].id;
      var rest := conns[..i] + conns[i + 1..];
      forall k | 0 <= k < |pending[1..]| ensures HasConn(rest, pending[1..][k].id) {
        assert HasConn(conns, pending[k + 1].id);
        var j :| 0 <= j < |conns| && conns[j].id == pending[k + 1].id;
        assert rest[if j < i then j else j - 1] == conns[j];
      }
      DistinctIdsFit(pending[1..], rest);
    }
  }

  // ---- a run with two ----

  /** Connection 6 refuses a stream, 7 comes up and closes in good order, and the Worker has not looked
      in between: one connection, two failures queued. */
  lemma {:induction false} TwoFailuresOfOneConnection()
    ensures var run := ReconnectRun() + [DoConnected(0, 7), DoClose(0, 7, 300_000)];
            && CanRun(Initial(), run) && !NeverDoubles(Initial(), run)
            && var t := Run(Initial(), run);
            |t.conns| == 1 && t.pending == [Failure(0, 1, 1), Failure(0, 2, 2)]
  {
    var tail := [DoConnected(0, 7), DoClose(0, 7, 300_000)];
    var run := ReconnectRun() + tail;
    var t1 := Reconnected().(conns := [Conn(0, 2, Ready, Some(7), 0, 0, 0, false, [6, 7], {6, 7}, 0, {}, [], 0)]);
    var t2 := Apply(t1, DoClose(0, 7, 300_000));
    CloseOfSeven(t1);
    assert !OneEach(t2) by { assert t2.pending[0] in t2.pending && t2.pending[1] in t2.pending; }
    ReconnectReaches();
    LateConnected(t1);
    hide *;
    RunStep(t1, tail[1], []);
    RunNothing(t2);
    RunStep(Reconnected(), tail[0], [tail[1]]);
    assert tail == [tail[0]] + [tail[1]];
    RunConcat(Initial(), ReconnectRun(), tail);
    if Throughout(OneEach, Initial(), run) {
      ThroughoutEnds(OneEach, Initial(), run);
      assert false;
    }
    OneFailureEachExactly(run);
  }

  lemma CloseOfSeven(t1: Transport)
    requires t1 == Reconnected().(conns := [Conn(0, 2, Ready, Some(7), 0, 0, 0, false, [6, 7], {6, 7}, 0, {}, [], 0)])
    ensures Enabled(t1, DoClose(0, 7, 300_000))
    ensures var t2 := Apply(t1, DoClose(0, 7, 300_000)); |t2.conns| == 1 && t2.pending == [Failure(0, 1, 1), Failure(0, 2, 2)]
  {
    hide Delay;
    KeysAreDistinct(0, 1, 0, 2);
    assert !KeyQueued(t1.pending, Failure(0, 2, 2).Key());
  }
}
