/** What the Worker is told: the bytes QUIC delivered, connection by connection and in order, and after a
    failure the selector of that failure. */
module DirectTold {
  import opened Options
  import opened Words
  import opened StreamHandles
  import opened SlotChains
  import opened ArenaModel
  import opened BackendConnections
  import opened DirectModel
  import DirectSafety
  import opened DirectEffects
  import opened DirectTheorems
  import opened DirectWorker

  // ---- the failure the selector names ----

  /** The failure told last, if any was. */
  function LastFailure(surfaced: seq<Surfaced>): Option<Failure>
    decreases |surfaced|
  {
    if surfaced == [] then None
    else match surfaced[|surfaced| - 1]
      case Failed(f) => Some(f)
      case Delivered(_, _) => LastFailure(surfaced[..|surfaced| - 1])
  }

  /** The remembered key is that of the failure told last. */
  ghost predicate RemembersLastFailure(t: Transport) {
    match LastFailure(t.surfaced)
    case None => t.lastFailure == 0
    case Some(f) => t.lastFailure == ConnectionKey(f.id, f.generation)
  }

  /** Nothing was told. */
  ghost predicate TellsNothing(t: Transport, u: Transport) {
    u.surfaced == t.surfaced && u.lastFailure == t.lastFailure
  }

  lemma {:induction false} TryTellsNothing(t: Transport, cursor: nat, offset: nat, w: seq<WriteOutcome>, now: nat, last: TransportError)
    requires t.conns != [] && CanOpen(t)
    ensures TellsNothing(t, TryFrom(t, cursor, offset, w, now, last).0)
    decreases |t.conns| - offset
  {
    hide MakeHandle, Turn, KeyQueued, Delay;
    if offset < |t.conns| {
      var ci := Turn(|t.conns|, cursor, offset);
      if t.conns[ci].state != Ready {
        TryTellsNothing(t, cursor, offset + 1, w, now, last);
      } else {
        match SendOn(t.conns[ci], None, OutcomeAt(w, ci)).1
        case Ok(h) =>
        case Err(e) =>
          FailedOnTouches(t, ci, OutcomeAt(w, ci), now);
          TryTellsNothing(FailedOn(t, ci, OutcomeAt(w, ci), now), cursor, offset + 1, w, now, e);
      }
    }
  }

  lemma OpenTellsNothing(t: Transport, ws: seq<WriteOutcome>, starts: seq<bool>, now: nat)
    requires CanOpen(t)
    ensures TellsNothing(t, SendNew(t, ws, starts, now).0)
  {
    hide TryFrom, EnsureAt;
    if !t.closed && t.conns != [] {
      TryTellsNothing(t, t.next, 0, ws, now, ConnectionFailed);
    }
  }

  /** Only receive tells the Worker anything. */
  lemma {:induction false} StepTellsNothing(t: Transport, step: Step)
    requires Enabled(t, step) && !step.DoReceive?
    ensures TellsNothing(t, Apply(t, step))
  {
    hide Delay, MakeHandle, HandleConnId, HandleGeneration, HandleStreamId, KeyQueued, SendNew, Chunks, Unreported;
    match step
    case DoOpen(ws, starts, now) => OpenTellsNothing(t, ws, starts, now);
    case DoSend(h, _, _) => ConnByIdFinds(t.conns, HandleConnId(h));
    case _ =>
  }

  lemma {:induction false} ReceiveRemembers(t: Transport)
    requires RemembersLastFailure(t)
    ensures RemembersLastFailure(Receive(t).0)
  {
    hide ConnectionKey;
    FirstQueuedFinds(t.conns);
    var u := Receive(t).0;
    assert u.surfaced != t.surfaced ==> u.surfaced[..|u.surfaced| - 1] == t.surfaced;
  }

  lemma {:induction false} StepRemembers(t: Transport, step: Step)
    requires RemembersLastFailure(t) && Enabled(t, step)
    ensures RemembersLastFailure(Apply(t, step))
  {
    hide Apply, Enabled, ConnectionKey;
    if step.DoReceive? {
      ReceiveRemembers(t);
      ReceiveIsAStep(t);
    } else {
      StepTellsNothing(t, step);
    }
  }

  lemma {:induction false} RunRemembers(t: Transport, steps: seq<Step>)
    requires RemembersLastFailure(t) && CanRun(t, steps)
    ensures RemembersLastFailure(Run(t, steps))
    decreases |steps|
  {
    hide Apply, Enabled, RemembersLastFailure;
    if steps != [] {
      StepRemembers(t, steps[0]);
      RunRemembers(Apply(t, steps[0]), steps[1..]);
    }
  }

  /** Over every run the selector handed to the Worker is that of the failure it was told last, and it is 0
      before the first. */
  lemma LastFailureIsSelected(steps: seq<Step>)
    requires CanRun(Initial(), steps)
    ensures var t := Run(Initial(), steps);
            match LastFailure(t.surfaced)
            case None => t.lastFailure == 0
            case Some(f) => t.lastFailure == ConnectionKey(f.id, f.generation)
  {
    RunRemembers(Initial(), steps);
  }

  lemma {:induction false} RunTellsMore(t: Transport, steps: seq<Step>)
    requires CanRun(t, steps)
    ensures t.surfaced <= Run(t, steps).surfaced
    decreases |steps|
  {
    hide Apply, Enabled;
    if steps != [] {
      StepTellsMore(t, steps[0]);
      RunTellsMore(Apply(t, steps[0]), steps[1..]);
    }
  }

  lemma {:induction false} StepTellsMore(t: Transport, step: Step)
    requires Enabled(t, step)
    ensures t.surfaced <= Apply(t, step).surfaced
  {
    hide ConnectionKey;
    if step.DoReceive? {
      FirstQueuedFinds(t.conns);
    } else {
      StepTellsNothing(t, step);
      hide Apply;
    }
  }

  /** Receive has just told a failure: the selector the Worker then asks for matches the streams of that
      generation of that connection, and an event it is handed later whose handle it matches comes from
      at least 65536 connected events after. */
  lemma {:induction false} SelectorIsTheLastWord(before: seq<Step>, after: seq<Step>, j: nat)
    requires CanRun(Initial(), before)
    requires var t := Run(Initial(), before); Receive(t).1 == Err(ReceiveFailed) && CanRun(Receive(t).0, after)
    requires var u := Receive(Run(Initial(), before)).0;
             |u.surfaced| <= j < |Run(u, after).surfaced| && Run(u, after).surfaced[j].Delivered?
    ensures var t := Run(Initial(), before);
            var u := Receive(t).0;
            var (selector, heard) := (FailureSelector(u.lastFailure), Run(u, after).surfaced[j]);
            && u.surfaced != [] && u.surfaced[|u.surfaced| - 1].Failed?
            && var f := u.surfaced[|u.surfaced| - 1].failure;
            && f in t.pending && u.surfaced == t.surfaced + [Failed(f)]
            && (forall h: Word :: selector.Matches(h) <==> HandleConnId(h) == f.id && HandleGeneration(h) == f.generation)
            && heard.received.event.streamId < WORD
            && (selector.Matches(heard.received.event.streamId) ==> heard.id == f.id && heard.received.epoch >= f.epoch + GENERATIONS)
  {
    var t := Run(Initial(), before);
    var u := Receive(t).0;
    ToldNewest(t);
    var f := u.surfaced[|u.surfaced| - 1].failure;
    assert u.lastFailure == ConnectionKey(f.id, f.generation);
    forall h: Word ensures FailureSelector(u.lastFailure).Matches(h) <==> HandleConnId(h) == f.id && HandleGeneration(h) == f.generation {
      SelectorIsExact(f.id, f.generation, h);
    }
    hide *;
    JoinAtReceive(before, after);
    RunTellsMore(u, after);
    var told := Run(u, after).surfaced;
    assert told[|u.surfaced| - 1] == u.surfaced[|u.surfaced| - 1];
    FailureIsTheLastWord(before + ([DoReceive] + after), |u.surfaced| - 1, j);
    assert f.Key() == ConnectionKey(f.id, f.generation) by { KeyIs(f); }
  }

  lemma KeyIs(f: Failure)
    ensures f.Key() == ConnectionKey(f.id, f.generation)
  {
  }

  lemma ToldNewest(t: Transport)
    requires Receive(t).1 == Err(ReceiveFailed)
    ensures var u := Receive(t).0;
            && t.pending != [] && var f := t.pending[|t.pending| - 1];
            f in t.pending && u.surfaced == t.surfaced + [Failed(f)] && u.lastFailure == ConnectionKey(f.id, f.generation)
  {
    FirstQueuedFinds(t.conns);
    hide ConnectionKey;
  }

  lemma {:induction false} JoinAtReceive(before: seq<Step>, after: seq<Step>)
    requires CanRun(Initial(), before) && CanRun(Receive(Run(Initial(), before)).0, after)
    ensures var steps := before + ([DoReceive] + after);
            CanRun(Initial(), steps) && Run(Initial(), steps) == Run(Receive(Run(Initial(), before)).0, after)
  {
    var t := Run(Initial(), before);
    assert Enabled(t, DoReceive) && Apply(t, DoReceive) == Receive(t).0;
    hide *;
    RunStep(t, DoReceive, after);
    RunConcat(Initial(), before, [DoReceive] + after);
  }

  // ---- what QUIC delivered ----

  /** One callback the transport took: in which generation of the connection, from which QUIC connection,
      for which of its streams, and what it brought. */
  datatype Heard = Heard(epoch: nat, from: Cnx, stream: StreamId, data: seq<Byte>, isFin: bool, kind: RecvKind)

  /** What connection `i` takes in this step: stream bytes, or a reset or stop, while it is ready. */
  function HeardIn(t: Transport, step: Step, i: nat): seq<Heard>
    requires i < |t.conns|
  {
    var c := t.conns[i];
    match step
    case DoStreamData(ci, from, stream, data, isFin, fits, _) =>
      if ci == i && c.state == Ready && fits && (data != [] || isFin) then [Heard(|c.made|, from, stream, data, isFin, Data)] else []
    case DoStreamControl(ci, from, stream, kind, fits, _) =>
      if ci == i && c.state == Ready && fits then [Heard(|c.made|, from, stream, [], true, kind)] else []
    case _ => []
  }

  ghost function HeardBy(t: Transport, steps: seq<Step>, i: nat): seq<Heard>
    requires CanRun(t, steps)
    decreases |steps|
  {
    if steps == [] then []
    else HeardAt(t, steps[0], i) + HeardBy(Apply(t, steps[0]), steps[1..], i)
  }

  /** The events carry exactly what one callback brought: its bytes in order, a slot's worth each, its kind,
      fin on the last one only, and handles that name the connection, the generation and the stream. */
  ghost predicate Carries(id: ConnId, events: seq<Received>, h: Heard) {
    && events != [] && Bytes(EventsOnly(events)) == h.data
    && forall k :: 0 <= k < |events| ==>
         && events[k].epoch == h.epoch && events[k].from == h.from && events[k].event.kind == h.kind
         && events[k].event.isFin == (h.isFin && k == |events| - 1) && |events[k].event.data| <= SLOT_BYTES
         && events[k].event.streamId < WORD && HandleConnId(events[k].event.streamId) == id
         && HandleGeneration(events[k].event.streamId) == h.epoch % GENERATIONS && HandleStreamId(events[k].event.streamId) == h.stream
  }

  function EventsOnly(received: seq<Received>): (r: seq<Event>) {
    if received == [] then [] else [received[0].event] + EventsOnly(received[1..])
  }

  /** The events are those of the callbacks, callback after callback. */
  ghost predicate Renders(id: ConnId, events: seq<Received>, heard: seq<Heard>)
    decreases |heard|
  {
    if heard == [] then events == []
    else exists n :: 0 <= n <= |events| && Renders(id, events[..n], heard[..|heard| - 1]) && Carries(id, events[n..], heard[|heard| - 1])
  }

  lemma {:induction false} TaggedOnly(c: Conn, from: Cnx, events: seq<Event>)
    ensures EventsOnly(Tagged(c, from, events)) == events
  {
    if events != [] {
      TaggedOnly(c, from, events[1..]);
      assert Tagged(c, from, events)[1..] == Tagged(c, from, events[1..]);
    }
  }

  /** The pieces of one callback carry it. */
  lemma ChunksCarry(c: Conn, h: Heard)
    requires ConnInv(c) && h.epoch == |c.made|
    ensures Carries(c.id, Tagged(c, h.from, Chunks(HandleOf(c, h.stream), h.data, h.isFin, h.kind)), h)
  {
    var handle := HandleOf(c, h.stream);
    ChunksAreTheData(handle, h.data, h.isFin, h.kind);
    TaggedOnly(c, h.from, Chunks(handle, h.data, h.isFin, h.kind));
    UnpackOfPack(c.id, c.generation, h.stream);
    hide MakeHandle, Chunks, HandleConnId, HandleGeneration, HandleStreamId, EventsOnly;
  }

  lemma RendersMore(id: ConnId, events: seq<Received>, heard: seq<Heard>, more: seq<Received>, h: Heard)
    requires Renders(id, events, heard) && Carries(id, more, h)
    ensures Renders(id, events + more, heard + [h])
  {
    hide Carries;
    assert (heard + [h])[..|heard|] == heard && (events + more)[..|events|] == events && (events + more)[|events|..] == more;
  }

  /** One step adds to a connection's events exactly what it took. */
  lemma {:induction false} StepHears(t: Transport, step: Step, i: nat, heard: seq<Heard>)
    requires DirectSafety.Inv(t) && Enabled(t, step) && i < |t.conns| && Renders(t.conns[i].id, t.conns[i].accepted, heard)
    ensures i < |Apply(t, step).conns| && Apply(t, step).conns[i].id == t.conns[i].id
    ensures Renders(t.conns[i].id, Apply(t, step).conns[i].accepted, heard + HeardIn(t, step, i))
  {
    var c := t.conns[i];
    assert ConnInv(c);
    assert heard + [] == heard;
    if Arrival(t, step).Some? {
      ArrivalApplies(t, step);
      var b := Arrival(t, step).value;
      if b.ci == i {
        var h := HeardIn(t, step, i)[0];
        assert HeardIn(t, step, i) == [h];
        assert b.events == Chunks(HandleOf(c, h.stream), h.data, h.isFin, h.kind) && b.from == h.from by {
          if step.DoStreamControl? {
            NoDataIsOneChunk(HandleOf(c, h.stream), true, h.kind);
          }
        }
        ChunksCarry(c, h);
        RendersMore(c.id, c.accepted, heard, Tagged(c, h.from, b.events), h);
      }
      hide *;
    } else {
      assert HeardIn(t, step, i) == [] by { NothingHeard(t, step, i); }
      OthersKeepAccepted(t, step, i);
      hide *;
    }
  }

  lemma NothingHeard(t: Transport, step: Step, i: nat)
    requires i < |t.conns| && Arrival(t, step).None?
    ensures HeardIn(t, step, i) == []
  {
    hide Chunks, MakeHandle;
  }

  lemma {:induction false} OthersKeepAccepted(t: Transport, step: Step, i: nat)
    requires Enabled(t, step) && i < |t.conns| && Arrival(t, step).None?
    ensures i < |Apply(t, step).conns|
    ensures Apply(t, step).conns[i].id == t.conns[i].id && Apply(t, step).conns[i].accepted == t.conns[i].accepted
  {
    if step.DoReceive? {
      FirstQueuedFinds(t.conns);
    } else if !step.DoCreate? && !step.DoShutdown? {
      QuietKeepsQueues(t, step);
      hide Apply;
    }
    hide ConnectionKey, Arrival;
  }

  /** What connection `i` has taken so far is what it has queued; one that is not there yet has taken nothing. */
  ghost predicate RenderedAt(t: Transport, i: nat, heard: seq<Heard>) {
    if i < |t.conns| then Renders(t.conns[i].id, t.conns[i].accepted, heard) else heard == []
  }

  function HeardAt(t: Transport, step: Step, i: nat): seq<Heard> {
    if i < |t.conns| then HeardIn(t, step, i) else []
  }

  lemma {:induction false} StepRenders(t: Transport, step: Step, i: nat, heard: seq<Heard>)
    requires DirectSafety.Inv(t) && Enabled(t, step) && RenderedAt(t, i, heard)
    ensures RenderedAt(Apply(t, step), i, heard + HeardAt(t, step, i))
  {
    hide Apply, Enabled, DirectSafety.Inv, Renders, HeardIn;
    if i < |t.conns| {
      StepHears(t, step, i, heard);
    } else if i < |Apply(t, step).conns| {
      NewHasNothing(t, step, i);
      assert heard + [] == [];
    }
  }

  lemma {:induction false} RunHears(t: Transport, steps: seq<Step>, i: nat, heard: seq<Heard>)
    requires DirectSafety.Inv(t) && CanRun(t, steps) && RenderedAt(t, i, heard)
    ensures RenderedAt(Run(t, steps), i, heard + HeardBy(t, steps, i))
    decreases |steps|
  {
    hide Apply, Enabled, DirectSafety.Inv, RenderedAt, HeardAt;
    if steps == [] {
      assert heard + [] == heard;
    } else {
      var (u, now) := (Apply(t, steps[0]), HeardAt(t, steps[0], i));
      DirectSafety.StepKeepsInv(t, steps[0]);
      StepRenders(t, steps[0], i, heard);
      RunHears(u, steps[1..], i, heard + now);
      assert heard + now + HeardBy(u, steps[1..], i) == heard + (now + HeardBy(u, steps[1..], i));
    }
  }

  lemma {:induction false} NewHasNothing(t: Transport, step: Step, i: nat)
    requires Enabled(t, step) && |t.conns| <= i < |Apply(t, step).conns|
    ensures Renders(Apply(t, step).conns[i].id, Apply(t, step).conns[i].accepted, [])
  {
    StepEffects(t, step);
    assert Apply(t, step).conns[|t.conns|].accepted == [];
    hide Apply;
  }

  // ---- in the order in which the Worker is told ----

  /** The events of connection `id` among what the Worker was told. */
  function ToldOf(surfaced: seq<Surfaced>, id: ConnId): seq<Received>
    decreases |surfaced|
  {
    if surfaced == [] then []
    else
      var (rest, last) := (ToldOf(surfaced[..|surfaced| - 1], id), surfaced[|surfaced| - 1]);
      if last.Delivered? && last.id == id then rest + [last.received] else rest
  }

  /** Of each connection the Worker was told the events in order, up to those still queued. */
  ghost predicate ToldInOrder(t: Transport) {
    && (forall i :: 0 <= i < |t.conns| ==> ToldSoFar(t, t.conns[i]))
    && (forall id :: id !in Ids(t) ==> ToldOf(t.surfaced, id) == [])
  }

  ghost predicate ToldSoFar(t: Transport, c: Conn) {
    && ToldOf(t.surfaced, c.id) <= c.accepted
    && (!t.closed ==> c.taken <= |c.accepted| && ToldOf(t.surfaced, c.id) == c.accepted[..c.taken])
  }

  /** An event of connection `ci` is told. */
  lemma {:induction false} EventInOrder(t: Transport, ci: nat)
    requires DirectSafety.Inv(t) && !t.closed && ci < |t.conns| && t.conns[ci].taken < |t.conns[ci].accepted| && ToldInOrder(t)
    ensures ToldInOrder(TakeFrom(t, ci))
  {
    var u := TakeFrom(t, ci);
    InvHasDistinctIds(t);
    IdIsThere(t, ci);
    hide DirectSafety.Inv, Ids;
    SameIds(t, u);
    assert u.surfaced[..|u.surfaced| - 1] == t.surfaced;
    forall i | 0 <= i < |t.conns| ensures ToldSoFar(u, u.conns[i]) {
      assert ToldSoFar(t, t.conns[i]);
    }
  }

  lemma {:induction false} FailureInOrder(t: Transport)
    requires t.pending != [] && ToldInOrder(t)
    ensures ToldInOrder(TakeFailure(t))
  {
    hide ConnectionKey, Ids;
    var u := TakeFailure(t);
    SameIds(t, u);
    assert u.surfaced[..|u.surfaced| - 1] == t.surfaced;
    forall i | 0 <= i < |t.conns| ensures ToldSoFar(u, u.conns[i]) {
      assert ToldSoFar(t, t.conns[i]);
    }
  }

  lemma {:induction false} ReceiveTellsInOrder(t: Transport)
    requires DirectSafety.Inv(t) && ToldInOrder(t)
    ensures ToldInOrder(Receive(t).0)
  {
    hide DirectSafety.Inv, ToldInOrder, TakeFrom, TakeFailure;
    FirstQueuedFinds(t.conns);
    if !t.closed {
      match FirstQueued(t.conns)
      case Some(ci) => EventInOrder(t, ci);
      case None =>
        if t.pending != [] {
          FailureInOrder(t);
        }
    }
  }

  lemma IdIsThere(t: Transport, i: nat)
    requires i < |t.conns|
    ensures t.conns[i].id in Ids(t)
  {
  }

  lemma InvHasDistinctIds(t: Transport)
    requires DirectSafety.Inv(t)
    ensures forall i, j :: 0 <= i < |t.conns| && 0 <= j < |t.conns| && t.conns[i].id == t.conns[j].id ==> i == j
  {
    hide DirectSafety.PendingInv, DirectSafety.OncePerFailure, DirectSafety.SurfacedInv, DirectSafety.StreamsInv,
         DirectSafety.UnreportedInv, DirectSafety.AllReported, ConnInv;
  }

  lemma {:induction false} ConnTellsInOrder(t: Transport, step: Step, i: nat)
    requires ToldInOrder(t) && Enabled(t, step) && !step.DoReceive? && i < |Apply(t, step).conns|
    ensures ToldSoFar(Apply(t, step), Apply(t, step).conns[i])
  {
    hide Apply, Effect, OpensAtMostOne, Ids, Ends;
    StepTellsNothing(t, step);
    StepEffects(t, step);
    if i < |t.conns| {
      assert ToldSoFar(t, t.conns[i]);
      StepQueuesInOrder(t, step, i);
    } else {
      assert step.id !in Ids(t) by { CreatedIsNew(t, step); }
    }
  }

  lemma CreatedIsNew(t: Transport, step: Step)
    requires Enabled(t, step) && step.DoCreate?
    ensures step.id !in Ids(t)
  {
    hide Ids;
  }

  lemma {:induction false} StepTellsInOrder(t: Transport, step: Step)
    requires DirectSafety.Inv(t) && ToldInOrder(t) && Enabled(t, step)
    ensures ToldInOrder(Apply(t, step))
  {
    hide Apply, Enabled, Ids, DirectSafety.Inv, ToldSoFar;
    if step.DoReceive? {
      ReceiveTellsInOrder(t);
      assert Apply(t, step) == Receive(t).0 by { ReceiveIsAStep(t); }
    } else {
      StepTellsNothing(t, step);
      StepIds(t, step);
      forall i | 0 <= i < |Apply(t, step).conns| ensures ToldSoFar(Apply(t, step), Apply(t, step).conns[i]) {
        ConnTellsInOrder(t, step, i);
      }
    }
  }

  lemma ReceiveIsAStep(t: Transport)
    ensures Enabled(t, DoReceive) && Apply(t, DoReceive) == Receive(t).0
  {
    hide Receive;
  }

  /** Apart from receive a step only adds at the end of what is queued; a shutdown gives the rest up. */
  lemma {:induction false} StepQueuesInOrder(t: Transport, step: Step, i: nat)
    requires Enabled(t, step) && !step.DoReceive? && i < |t.conns|
    ensures i < |Apply(t, step).conns|
    ensures var (c, d) := (t.conns[i], Apply(t, step).conns[i]);
            d.id == c.id && c.accepted <= d.accepted && (!step.DoShutdown? ==> d.taken == c.taken)
  {
    if Arrival(t, step).Some? {
      ArrivalApplies(t, step);
      assert !step.DoShutdown?;
      hide Apply, Arrival, Chunks;
    } else if !step.DoCreate? && !step.DoShutdown? {
      QuietKeepsQueues(t, step);
      hide Apply;
    }
  }

  lemma {:induction false} RunTellsInOrder(t: Transport, steps: seq<Step>)
    requires DirectSafety.Inv(t) && ToldInOrder(t) && CanRun(t, steps)
    ensures ToldInOrder(Run(t, steps))
    decreases |steps|
  {
    hide Apply, Enabled, ToldInOrder, DirectSafety.Inv;
    if steps != [] {
      DirectSafety.StepKeepsInv(t, steps[0]);
      StepTellsInOrder(t, steps[0]);
      RunTellsInOrder(Apply(t, steps[0]), steps[1..]);
    }
  }

  /** Over every run: of each connection the Worker is told, in order and without a gap, the events of the
      callbacks taken while the connection was ready: every byte, kind, fin and stream as QUIC delivered
      them. While the transport is open, what is not told yet is what is still queued. */
  lemma {:induction false} WorkerHearsWhatQuicDelivered(steps: seq<Step>, i: nat)
    requires CanRun(Initial(), steps) && i < |Run(Initial(), steps).conns|
    ensures var t := Run(Initial(), steps);
            var c := t.conns[i];
            && Renders(c.id, c.accepted, HeardBy(Initial(), steps, i))
            && ToldOf(t.surfaced, c.id) <= c.accepted
            && (!t.closed ==> c.taken <= |c.accepted| && ToldOf(t.surfaced, c.id) == c.accepted[..c.taken])
  {
    InitialInv();
    assert ToldInOrder(Initial());
    RunTellsInOrder(Initial(), steps);
    assert ToldSoFar(Run(Initial(), steps), Run(Initial(), steps).conns[i]);
    RunHears(Initial(), steps, i, []);
    assert [] + HeardBy(Initial(), steps, i) == HeardBy(Initial(), steps, i);
  }
}
