/** The streams the gateway opens, and what a caller is answered. */
module DirectStreams {
  import opened Options
  import opened Words
  import opened StreamHandles
  import opened SlotChains
  import ArenaModel
  import opened BackendConnections
  import opened DirectModel
  import DirectSafety
  import opened DirectEffects
  import opened DirectTheorems
  import opened DirectFailures

  // ---- stream numbers ----

  /** How many streams of one generation of one connection are on record. */
  function Opened(streams: seq<OpenedStream>, id: ConnId, epoch: nat): nat
    decreases |streams|
  {
    if streams == [] then 0
    else
      var last := streams[|streams| - 1];
      Opened(streams[..|streams| - 1], id, epoch) + if last.id == id && last.epoch == epoch then 1 else 0
  }

  lemma OpenedMore(streams: seq<OpenedStream>, o: OpenedStream, id: ConnId, epoch: nat)
    ensures Opened(streams + [o], id, epoch) == Opened(streams, id, epoch) + if o.id == id && o.epoch == epoch then 1 else 0
  {
    assert (streams + [o])[..|streams|] == streams;
  }

  lemma {:induction false} NothingOpenedYet(streams: seq<OpenedStream>, id: ConnId, epoch: nat)
    requires forall k :: 0 <= k < |streams| && streams[k].id == id ==> streams[k].epoch != epoch
    ensures Opened(streams, id, epoch) == 0
    decreases |streams|
  {
    if streams != [] {
      NothingOpenedYet(streams[..|streams| - 1], id, epoch);
    }
  }

  /** The streams of a generation have the numbers 0, 4, 8, and so on, in the order in which they were opened. */
  ghost predicate Consecutive(streams: seq<OpenedStream>) {
    forall k :: 0 <= k < |streams| ==> streams[k].stream == 4 * Opened(streams[..k], streams[k].id, streams[k].epoch)
  }

  /** A ready connection goes on where its generation has got to. */
  ghost predicate NextIs(streams: seq<OpenedStream>, c: Conn) {
    c.state == Ready ==> c.nextStream == 4 * Opened(streams, c.id, |c.made|)
  }

  ghost predicate Numbered(t: Transport) {
    Consecutive(t.streams) && forall i :: 0 <= i < |t.conns| ==> NextIs(t.streams, t.conns[i])
  }

  lemma ConsecutiveMore(streams: seq<OpenedStream>, o: OpenedStream)
    requires Consecutive(streams) && o.stream == 4 * Opened(streams, o.id, o.epoch)
    ensures Consecutive(streams + [o])
  {
    var all := streams + [o];
    forall k | 0 <= k < |all| ensures all[k].stream == 4 * Opened(all[..k], all[k].id, all[k].epoch) {
      if k < |streams| {
        assert all[..k] == streams[..k];
      } else {
        assert all[..k] == streams;
      }
    }
  }

  /** A stream was opened on connection `ci`. */
  lemma {:induction false} OpeningNumbers(t: Transport, u: Transport, ci: nat, i: nat)
    requires DirectSafety.Inv(t) && Numbered(t) && OpenedOver(t, u, ci) && i < |t.conns| == |u.conns|
    requires u.conns[i].id == t.conns[i].id && u.conns[i].made == t.conns[i].made
    requires u.conns[i].state == Ready ==> t.conns[i].state == Ready
    requires u.conns[i].state == Ready ==> u.conns[i].nextStream == t.conns[i].nextStream || OpenedOver(t, u, i)
    ensures Consecutive(u.streams) && NextIs(u.streams, u.conns[i])
  {
    var o := u.streams[|t.streams|];
    InvHasDistinctIds(t);
    assert NextIs(t.streams, t.conns[ci]) && NextIs(t.streams, t.conns[i]);
    hide DirectSafety.Inv, Opened;
    ConsecutiveMore(t.streams, o);
    OpenedMore(t.streams, o, u.conns[i].id, |u.conns[i].made|);
    if i != ci {
      assert t.conns[i].id != t.conns[ci].id;
    }
  }

  lemma {:induction false} OpenNumbers(t: Transport, step: Step)
    requires DirectSafety.Inv(t) && Numbered(t) && Enabled(t, step) && step.DoOpen?
    ensures Numbered(Apply(t, step))
  {
    StepEffects(t, step);
    var u := Apply(t, step);
    hide Apply, Enabled, DirectSafety.Inv, Consecutive, NextIs, OpenedOver;
    forall i | 0 <= i < |t.conns| ensures NextIs(u.streams, u.conns[i]) {
      assert Effect(t, step, i, t.conns[i], u.conns[i]) && NextIs(t.streams, t.conns[i]);
      if ci: nat :| OpenedOver(t, u, ci) {
        OpeningNumbers(t, u, ci, i);
      } else {
        NextKept(t.streams, t.conns[i], u.conns[i]);
      }
    }
    if ci: nat :| OpenedOver(t, u, ci) {
      OpenedThere(t, u, ci);
      OpeningNumbers(t, u, ci, ci);
    }
  }

  lemma OpenedThere(t: Transport, u: Transport, ci: nat)
    requires OpenedOver(t, u, ci)
    ensures ci < |t.conns|
  {
  }

  lemma NextKept(streams: seq<OpenedStream>, c: Conn, d: Conn)
    requires NextIs(streams, c) && d.id == c.id && d.made == c.made
    requires d.state == Ready ==> c.state == Ready && d.nextStream == c.nextStream
    ensures NextIs(streams, d)
  {
  }

  /** A generation that has just begun has no stream yet. */
  lemma {:induction false} ConnectedNumbers(t: Transport, i: nat, from: Cnx)
    requires DirectSafety.Inv(t) && i < |t.conns|
    ensures NextIs(t.streams, HookConnected(t.conns[i], from))
  {
    var c := t.conns[i];
    forall k | 0 <= k < |t.streams| && t.streams[k].id == c.id ensures t.streams[k].epoch != |c.made| + 1 {
      assert DirectSafety.StreamKnown(t.conns, t.streams[k]);
    }
    hide DirectSafety.Inv;
    NothingOpenedYet(t.streams, c.id, |c.made| + 1);
  }

  lemma {:induction false} StepNumbers(t: Transport, step: Step)
    requires DirectSafety.Inv(t) && Numbered(t) && Enabled(t, step)
    ensures Numbered(Apply(t, step))
  {
    if step.DoOpen? {
      OpenNumbers(t, step);
    } else {
      StepEffects(t, step);
      var u := Apply(t, step);
      hide Apply, Enabled, DirectSafety.Inv, Consecutive, NextIs, OpensAtMostOne, Delay;
      forall i | 0 <= i < |u.conns| ensures NextIs(u.streams, u.conns[i]) {
        if i < |t.conns| {
          assert Effect(t, step, i, t.conns[i], u.conns[i]) && NextIs(t.streams, t.conns[i]);
          if step.DoConnected? && step.ci == i {
            ConnectedNumbers(t, i, step.from);
          } else {
            NextKept(t.streams, t.conns[i], u.conns[i]);
          }
        } else {
          FreshNext(u.streams, step.id);
        }
      }
    }
  }

  lemma FreshNext(streams: seq<OpenedStream>, id: ConnId)
    ensures NextIs(streams, BackendConnections.Fresh(id))
  {
  }

  lemma {:induction false} RunNumbers(t: Transport, steps: seq<Step>)
    requires DirectSafety.Inv(t) && Numbered(t) && CanRun(t, steps)
    ensures Numbered(Run(t, steps))
    decreases |steps|
  {
    hide Apply, Enabled, DirectSafety.Inv, Numbered;
    if steps != [] {
      DirectSafety.StepKeepsInv(t, steps[0]);
      StepNumbers(t, steps[0]);
      RunNumbers(Apply(t, steps[0]), steps[1..]);
    }
  }

  /** Over every run the k-th stream opened in a generation has number 4k, counting from 0, whatever was
      refused, reconnected or given up in between. */
  lemma StreamsAreConsecutive(steps: seq<Step>, k: nat)
    requires CanRun(Initial(), steps) && k < |Run(Initial(), steps).streams|
    ensures var streams := Run(Initial(), steps).streams;
            streams[k].stream == 4 * Opened(streams[..k], streams[k].id, streams[k].epoch)
  {
    InitialInv();
    RunNumbers(Initial(), steps);
  }

  // ---- what the caller is answered ----

  /** Connection `i` is the one the handle names. */
  predicate Named(t: Transport, h: Word, i: nat) {
    && i < |t.conns| && t.conns[i].id == HandleConnId(h)
    && forall k :: 0 <= k < i ==> t.conns[k].id != HandleConnId(h)
  }

  lemma NamedIsFound(t: Transport, h: Word, i: nat)
    requires Named(t, h, i)
    ensures ConnById(t.conns, HandleConnId(h)) == Some(i)
  {
    ConnByIdFinds(t.conns, HandleConnId(h));
    hide HandleConnId;
  }

  /** A write on an existing stream. Nobody to write to: the transport is closed, there is no endpoint at all,
      or none has that id; then nothing changes. */
  lemma {:induction false} NobodyToWriteTo(t: Transport, h: Word, w: WriteOutcome, now: nat)
    requires forall i: nat :: !Named(t, h, i) || t.closed
    ensures SendExisting(t, h, w, now)
         == (t, Err(if !t.closed && t.conns == [] then RouteNotFound else TransportError.Closed))
  {
    ConnByIdFinds(t.conns, HandleConnId(h));
    hide HandleConnId;
    match ConnById(t.conns, HandleConnId(h))
    case Some(i) => assert t.closed || Named(t, h, i);
    case None =>
  }

  /** Somebody to write to: a broken connection if it is not ready, or has no QUIC connection that is up, and
      a ready one fails for it; closed for a handle of another generation; a refused stream fails nothing. */
  lemma {:induction false} ExistingWriteIsAnswered(t: Transport, h: Word, w: WriteOutcome, now: nat, i: nat)
    requires !t.closed && Named(t, h, i)
    ensures var ((u, r), c) := (SendExisting(t, h, w, now), t.conns[i]);
            var (up, current) := (c.state == Ready && c.cnx.Some? && !w.NotConnected?, HandleGeneration(h) == c.generation);
            && (r == Err(ConnectionFailed) <==> !up)
            && (r == Err(TransportError.Closed) <==> up && !current)
            && (r == Err(SendFailed) <==> up && current && w.Rejected?)
            && (r.Ok? <==> up && current && w.Written?)
            && (if c.state == Ready && !up then i < |u.conns| && u.conns[i].state == Backoff else u == t)
  {
    NamedIsFound(t, h, i);
    hide MakeHandle, HandleConnId, HandleGeneration, HandleStreamId, KeyQueued, Delay, Named, ConnById;
  }

  /** What a connection that cannot take the stream says. */
  function Complaint(c: Conn, w: WriteOutcome): TransportError {
    if c.cnx.Some? && w.Rejected? then SendFailed else ConnectionFailed
  }

  /** The last ready connection in turn is `k` places after the cursor. */
  predicate LastReady(t: Transport, cursor: nat, offset: nat, k: nat)
    requires t.conns != []
  {
    && offset <= k < |t.conns| && t.conns[Turn(|t.conns|, cursor, k)].state == Ready
    && forall m :: k < m < |t.conns| ==> t.conns[Turn(|t.conns|, cursor, m)].state != Ready
  }

  ghost predicate NoneReady(t: Transport, cursor: nat, offset: nat)
    requires t.conns != []
  {
    forall m :: offset <= m < |t.conns| ==> t.conns[Turn(|t.conns|, cursor, m)].state != Ready
  }

  /** `e` is the complaint of the last ready connection in turn, or `last` if none is ready. */
  ghost predicate IsLastComplaint(t: Transport, cursor: nat, offset: nat, w: seq<WriteOutcome>, last: TransportError, e: TransportError)
    requires t.conns != []
  {
    || (NoneReady(t, cursor, offset) && e == last)
    || exists k :: LastReady(t, cursor, offset, k)
                   && e == Complaint(t.conns[Turn(|t.conns|, cursor, k)], OutcomeAt(w, Turn(|t.conns|, cursor, k)))
  }

  lemma TurnsDiffer(n: nat, cursor: nat, k: nat, m: nat)
    requires k < m < n
    ensures Turn(n, cursor, k) != Turn(n, cursor, m)
  {
    var (a, b) := (cursor + k, cursor + m);
    var q := b / n - a / n;
    assert a == n * (a / n) + a % n && b == n * (b / n) + b % n;
    if a % n == b % n {
      assert n * q == m - k;
      NoMultiple(n, q);
    }
  }

  lemma NoMultiple(n: nat, q: int)
    ensures n * q <= 0 || n * q >= n
  {
    if q >= 1 {
      assert n * (q - 1) >= 0;
    } else {
      assert n * (-q) >= 0;
    }
  }

  lemma SkipComplaint(t: Transport, cursor: nat, offset: nat, w: seq<WriteOutcome>, last: TransportError, e: TransportError)
    requires offset < |t.conns| && t.conns[Turn(|t.conns|, cursor, offset)].state != Ready
    requires IsLastComplaint(t, cursor, offset + 1, w, last, e)
    ensures IsLastComplaint(t, cursor, offset, w, last, e)
  {
    hide Turn, Complaint;
    if k :| LastReady(t, cursor, offset + 1, k)
            && e == Complaint(t.conns[Turn(|t.conns|, cursor, k)], OutcomeAt(w, Turn(|t.conns|, cursor, k))) {
      assert LastReady(t, cursor, offset, k);
    }
  }

  /** The next in turn has just failed and complained; what the rest says goes before it. */
  lemma {:induction false} NextComplaint(t: Transport, v: Transport, cursor: nat, offset: nat, w: seq<WriteOutcome>, e: TransportError)
    requires offset < |t.conns| && FailedAt(t, v, Turn(|t.conns|, cursor, offset))
    requires t.conns[Turn(|t.conns|, cursor, offset)].state == Ready
    requires var ci := Turn(|t.conns|, cursor, offset);
             IsLastComplaint(v, cursor, offset + 1, w, Complaint(t.conns[ci], OutcomeAt(w, ci)), e)
    ensures forall last :: IsLastComplaint(t, cursor, offset, w, last, e)
  {
    hide Turn, Complaint, Signal;
    var n := |t.conns|;
    forall m | offset < m < n ensures v.conns[Turn(n, cursor, m)] == t.conns[Turn(n, cursor, m)] {
      TurnsDiffer(n, cursor, offset, m);
    }
    if NoneReady(v, cursor, offset + 1) {
      assert t.conns[Turn(n, cursor, offset)].state == Ready;
      forall m | offset < m < n ensures t.conns[Turn(n, cursor, m)].state != Ready {
        assert v.conns[Turn(n, cursor, m)].state != Ready;
      }
      assert LastReady(t, cursor, offset, offset);
    }
    if k :| LastReady(v, cursor, offset + 1, k)
            && e == Complaint(v.conns[Turn(n, cursor, k)], OutcomeAt(w, Turn(n, cursor, k))) {
      assert LastReady(t, cursor, offset, k);
    }
  }

  lemma {:induction false} TryComplains(t: Transport, cursor: nat, offset: nat, w: seq<WriteOutcome>, now: nat, last: TransportError)
    requires t.conns != [] && CanOpen(t) && TryFrom(t, cursor, offset, w, now, last).1.Err?
    ensures IsLastComplaint(t, cursor, offset, w, last, TryFrom(t, cursor, offset, w, now, last).1.error)
    decreases |t.conns| - offset
  {
    hide Turn, MakeHandle, FailedOn, FailedAt, IsLastComplaint;
    if offset >= |t.conns| {
      NoComplaint(t, cursor, offset, w, last);
    } else {
      var ci := Turn(|t.conns|, cursor, offset);
      if t.conns[ci].state != Ready {
        TryComplains(t, cursor, offset + 1, w, now, last);
        SkipComplaint(t, cursor, offset, w, last, TryFrom(t, cursor, offset + 1, w, now, last).1.error);
      } else {
        match SendOn(t.conns[ci], None, OutcomeAt(w, ci)).1
        case Err(e) =>
          var v := FailedOn(t, ci, OutcomeAt(w, ci), now);
          FailedOnTouches(t, ci, OutcomeAt(w, ci), now);
          FailedOnFails(t, ci, OutcomeAt(w, ci), now);
          assert e == Complaint(t.conns[ci], OutcomeAt(w, ci));
          TryComplains(v, cursor, offset + 1, w, now, e);
          NextComplaint(t, v, cursor, offset, w, TryFrom(v, cursor, offset + 1, w, now, e).1.error);
        case Ok(h) =>
      }
    }
  }

  lemma NoComplaint(t: Transport, cursor: nat, offset: nat, w: seq<WriteOutcome>, last: TransportError)
    requires t.conns != [] && offset >= |t.conns|
    ensures IsLastComplaint(t, cursor, offset, w, last, last)
  {
  }

  /** A new stream that nobody takes: the caller is told what the last ready connection in turn said, and
      that the connection failed if none was ready; a closed transport and one without endpoints say so. */
  lemma {:induction false} NewStreamIsAnswered(t: Transport, w: seq<WriteOutcome>, started: seq<bool>, now: nat)
    requires CanOpen(t) && SendNew(t, w, started, now).1.Err?
    ensures var e := SendNew(t, w, started, now).1.error;
            if t.closed then e == TransportError.Closed && SendNew(t, w, started, now).0 == t
            else if t.conns == [] then e == RouteNotFound && SendNew(t, w, started, now).0 == t
            else IsLastComplaint(t, t.next, 0, w, ConnectionFailed, e)
  {
    hide TryFrom, IsLastComplaint, EnsureAll;
    if !t.closed && t.conns != [] {
      TryComplains(t, t.next, 0, w, now, ConnectionFailed);
    }
  }
}
