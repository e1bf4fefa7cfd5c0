/** How a connection's history and its queue in the arena correspond. */
module ArenaLink {
  import opened SlotChains
  import opened ArenaModel
  import opened BackendConnections

  function EventsIn(received: seq<Received>): (r: seq<Event>)
    ensures |r| == |received|
  {
    seq(|received|, k requires 0 <= k < |received| => received[k].event)
  }

  /** Queue `l` of the arena holds what the connection accepted and did not hand out. */
  ghost predicate Feeds<K>(a: Arena<K>, l: K, c: Conn) {
    && l in a.layout.queues && l in a.accepted && l in a.popped
    && a.accepted[l] == EventsIn(c.accepted) && |a.popped[l]| == c.taken
  }

  lemma EventsInConcat(a: seq<Received>, b: seq<Received>)
    ensures EventsIn(a + b) == EventsIn(a) + EventsIn(b)
  {
  }

  lemma TaggedEvents(c: Conn, from: Cnx, events: seq<Event>)
    ensures EventsIn(Tagged(c, from, events)) == events
  {
  }

  lemma {:induction false} EventsCount(slots: seq<Slot>, bytes: seq<Byte>, q: seq<nat>)
    ensures |EventsOf(slots, bytes, q)| == |q|
  {
    if q != [] {
      EventsCount(slots, bytes, q[1..]);
    }
  }

  /** A connection has handed everything out exactly when its arena queue is empty. */
  lemma DrainedMeansEmptyQueue<K>(a: Arena<K>, l: K, c: Conn)
    requires ArenaModel.Inv(a) && Feeds(a, l, c)
    ensures c.taken == |c.accepted| <==> a.layout.queues[l] == []
  {
    assert QueueInv(a, l);
    EventsCount(a.layout.slots, a.bytes, a.layout.queues[l]);
  }

  /** The head of the queue is the oldest event not handed out. */
  lemma HeadIsNext<K>(a: Arena<K>, l: K, c: Conn)
    requires ArenaModel.Inv(a) && Feeds(a, l, c) && a.layout.queues[l] != []
    ensures c.taken < |c.accepted|
    ensures EventAt(a.layout.slots, a.bytes, a.layout.queues[l][0]) == c.accepted[c.taken].event
  {
    assert QueueInv(a, l);
    assert a.accepted[l][c.taken] == EventsIn(c.accepted)[c.taken];
  }
}

/** One Worker: several direct transports over one shared arena, one failure count and one supply of
    connection ids. What the drain fast path asks, and what a stream handle identifies. */
module DirectWorker {
  import opened Options
  import opened RealmQuota
  import opened Words
  import opened StreamHandles
  import opened SlotChains
  import opened ArenaModel
  import opened WorkerPool
  import opened BackendConnections
  import opened ArenaLink
  import opened DirectModel
  import DirectSafety
  import DirectTheorems
  import DirectEffects

  datatype Worker = Worker(arena: Arena<ConnId>, failures: int, nextConnId: nat, transports: seq<Transport>)

  // ---- steps ----

  /** A new transport, one event of one transport, or a slot the Worker gives back. `after` is the
      arena afterwards, `realm` that of a new connection. */
  datatype WorkerStep =
    | NewTransport
    | OnTransport(ti: nat, step: Step, realm: Realm, after: Arena<ConnId>)
    | GiveBack(slot: nat)

  datatype Batch = Batch(ci: nat, from: Cnx, events: seq<Event>)

  /** The events a callback queues, if the arena takes them. */
  function Arrival(t: Transport, step: Step): Option<Batch> {
    match step
    case DoStreamData(ci, from, stream, data, isFin, fits, _) =>
      if ci < |t.conns| && t.conns[ci].state == Ready && (data != [] || isFin) && fits
      then Some(Batch(ci, from, Chunks(HandleOf(t.conns[ci], stream), data, isFin, Data))) else None
    case DoStreamControl(ci, from, stream, kind, fits, _) =>
      if ci < |t.conns| && t.conns[ci].state == Ready && fits
      then Some(Batch(ci, from, [Event(HandleOf(t.conns[ci], stream), [], true, kind)])) else None
    case _ => None
  }

  /** The ids of a transport's connections, in order. */
  function IdList(t: Transport): (r: seq<ConnId>)
    ensures |r| == |t.conns|
  {
    seq(|t.conns|, i requires 0 <= i < |t.conns| => t.conns[i].id)
  }

  /** What one event of a transport does to the shared arena: a new queue, one pop, the chunks of a
      callback appended one by one, or every queue of the transport given back. */
  ghost predicate ArenaFollows(a: Arena<ConnId>, t: Transport, step: Step, realm: Realm, b: Arena<ConnId>) {
    if step.DoCreate? then b == Open(a, step.id, realm)
    else if step.DoReceive? then
      FirstQueuedFinds(t.conns);
      if !t.closed && FirstQueued(t.conns).Some? then
        var l := t.conns[FirstQueued(t.conns).value].id;
        PopReady(a, l) && b == Pop(a, l)
      else b == a
    else if step.DoShutdown? then
      if t.closed then b == a else ArenaModel.Inv(a) && HasQueues(a, IdList(t)) && b == DiscardAll(a, IdList(t))
    else match Arrival(t, step)
      case Some(batch) => batch.ci < |t.conns| && Joined(a, b, t.conns[batch.ci].id, true, batch.events)
      case None => b == a
  }

  /** The queues of `ids` were given back unread; what is on loan stays on loan. */
  ghost predicate Dropped(a: Arena<ConnId>, b: Arena<ConnId>, ids: set<ConnId>) {
    && b.layout.queues.Keys == a.layout.queues.Keys && b.accepted == a.accepted && b.popped.Keys == a.popped.Keys
    && LoansKept(a, b)
    && forall l :: l in a.popped ==> b.popped[l] == if l in ids && l in a.accepted then a.accepted[l] else a.popped[l]
  }

  lemma DiscardedIsDropped(a: Arena<ConnId>, t: Transport)
    requires ArenaModel.Inv(a) && HasQueues(a, IdList(t))
    ensures ArenaModel.Inv(DiscardAll(a, IdList(t))) && Dropped(a, DiscardAll(a, IdList(t)), Ids(t))
  {
    hide ArenaModel.Inv, LoansKept, DiscardAll, HasQueues, Ids, IdList;
    IdsAreListed(t);
    DiscardAllBooks(a, IdList(t));
  }

  lemma IdsAreListed(t: Transport)
    ensures forall l :: l in IdList(t) <==> l in Ids(t)
  {
    forall l | l in Ids(t) ensures l in IdList(t) {
      var i :| 0 <= i < |t.conns| && t.conns[i].id == l;
      assert IdList(t)[i] == l;
    }
  }

  /** What that means for the books: every queue of the arena is accounted for, and the arena stays sound. */
  ghost predicate ArenaChanges(a: Arena<ConnId>, t: Transport, step: Step, realm: Realm, b: Arena<ConnId>) {
    if step.DoCreate? then b == Open(a, step.id, realm)
    else if step.DoReceive? then
      FirstQueuedFinds(t.conns);
      if !t.closed && FirstQueued(t.conns).Some? then
        var l := t.conns[FirstQueued(t.conns).value].id;
        PopReady(a, l) && b == Pop(a, l)
      else b == a
    else if step.DoShutdown? then
      if t.closed then b == a else ArenaModel.Inv(b) && Dropped(a, b, Ids(t))
    else match Arrival(t, step)
      case Some(batch) => batch.ci < |t.conns| && ArenaModel.Inv(b) && Grew(a, b, t.conns[batch.ci].id, batch.events)
      case None => b == a
  }

  lemma FollowingChanges(a: Arena<ConnId>, t: Transport, step: Step, realm: Realm, b: Arena<ConnId>)
    requires ArenaFollows(a, t, step, realm, b)
    ensures ArenaChanges(a, t, step, realm, b)
  {
    hide ArenaModel.Inv, PopReady, Open, Pop, DiscardAll, Dropped, Grew, AppendAll, Joined, HasQueues, Arrival, Ids, IdList, FirstQueued;
    if step.DoShutdown? && !t.closed {
      DiscardedIsDropped(a, t);
    } else if !step.DoCreate? && !step.DoReceive? && !step.DoShutdown? && Arrival(t, step).Some? {
      var batch := Arrival(t, step).value;
      JoinedGrew(a, b, t.conns[batch.ci].id, batch.events);
    }
  }

  ghost predicate WorkerEnabled(w: Worker, s: WorkerStep) {
    match s
    case NewTransport => true
    case GiveBack(slot) => Loaned(w.arena, slot)
    case OnTransport(ti, step, realm, after) =>
      && ti < |w.transports| && Enabled(w.transports[ti], step)
      && (step.DoCreate? ==> step.id == w.nextConnId < MAX_CONN_ID)
      && ArenaFollows(w.arena, w.transports[ti], step, realm, after)
  }

  /** The failure count moves with the queues of the transports: every method of `DirectTransport` keeps
      the pool's count minus its own queue. */
  ghost function WorkerApply(w: Worker, s: WorkerStep): Worker
    requires WorkerEnabled(w, s)
  {
    match s
    case NewTransport => w.(transports := w.transports + [DirectModel.Initial()])
    case GiveBack(slot) => w.(arena := Release(w.arena, slot))
    case OnTransport(ti, step, _, after) =>
      var t, u := w.transports[ti], Apply(w.transports[ti], step);
      Worker(after, w.failures + |u.pending| - |t.pending|, w.nextConnId + if step.DoCreate? then 1 else 0, w.transports[ti := u])
  }

  // ---- the invariant ----

  function Queued(transports: seq<Transport>): nat {
    if transports == [] then 0 else |transports[0].pending| + Queued(transports[1..])
  }

  ghost predicate InStep(a: Arena<ConnId>, c: Conn) {
    Feeds(a, c.id, c)
  }

  ghost predicate TransportInv(a: Arena<ConnId>, t: Transport) {
    && DirectSafety.Inv(t)
    && ConnsInStep(a, t)
    && (t.closed ==> t.pending == [] && forall i :: 0 <= i < |t.conns| ==> t.conns[i].taken == |t.conns[i].accepted|)
  }

  /** Connection ids are handed out in order and never shared. */
  ghost predicate IdsUnique(transports: seq<Transport>, next: nat) {
    && (forall ti, id :: 0 <= ti < |transports| && id in Ids(transports[ti]) ==> id < next)
    && (forall ti, tj, id :: 0 <= ti < tj < |transports| && id in Ids(transports[ti]) ==> id !in Ids(transports[tj]))
  }

  /** Every queue of the arena has its connection. */
  ghost predicate QueuesOwned(transports: seq<Transport>, queues: set<ConnId>) {
    forall l :: l in queues ==> exists ti :: 0 <= ti < |transports| && l in Ids(transports[ti])
  }

  ghost predicate IdsInv(w: Worker) {
    w.nextConnId <= MAX_CONN_ID && IdsUnique(w.transports, w.nextConnId) && QueuesOwned(w.transports, w.arena.layout.queues.Keys)
  }

  ghost predicate WorkerInv(w: Worker) {
    && ArenaModel.Inv(w.arena) && IdsInv(w) && w.failures == Queued(w.transports)
    && forall ti :: 0 <= ti < |w.transports| ==> TransportInv(w.arena, w.transports[ti])
  }

  // ---- what a step does to a transport's queues ----

  lemma OpenKeepsQueues(t: Transport, ws: seq<WriteOutcome>, starts: seq<bool>, now: nat)
    requires CanOpen(t)
    ensures SameQueues(t, SendNew(t, ws, starts, now).0)
  {
    hide Delay, TryFrom;
    if !t.closed && t.conns != [] {
      DirectEffects.TryOnlyTouches(t, t.next, 0, ws, now, ConnectionFailed);
      var u := TryFrom(t, t.next, 0, ws, now, ConnectionFailed).0;
      forall i | 0 <= i < |t.conns|
        ensures u.conns[i].id == t.conns[i].id && u.conns[i].accepted == t.conns[i].accepted && u.conns[i].taken == t.conns[i].taken
      {
        assert DirectEffects.Touched(t.conns[i], u.conns[i]);
      }
    }
  }

  /** Every step that is none of create, receive, shutdown and the arrival of events. */
  lemma QuietKeepsQueues(t: Transport, step: Step)
    requires Enabled(t, step) && !step.DoCreate? && !step.DoReceive? && !step.DoShutdown? && Arrival(t, step).None?
    ensures SameQueues(t, Apply(t, step))
  {
    hide Delay, MakeHandle, HandleConnId, HandleGeneration, HandleStreamId, KeyQueued, SendNew, TryFrom, Chunks, Unreported,
         Arrival, HookStreamData, HookStreamControl, DispatchClose;
    match step
    case DoOpen(ws, starts, now) => OpenKeepsQueues(t, ws, starts, now);
    case DoSend(h, _, _) => ConnByIdFinds(t.conns, HandleConnId(h));
    case DoStreamData(_, _, _, _, _, _, _) => RefusedKeepsQueues(t, step);
    case DoStreamControl(_, _, _, _, _, _) => RefusedKeepsQueues(t, step);
    case DoClose(ci, from, now) => CloseKeepsQueues(t, ci, from, now);
    case _ =>
  }

  lemma CloseKeepsQueues(t: Transport, ci: nat, from: Cnx, now: nat)
    requires ci < |t.conns|
    ensures SameQueues(t, DispatchClose(t, ci, from, now))
  {
    hide Delay, KeyQueued;
  }

  lemma RefusedKeepsQueues(t: Transport, step: Step)
    requires Enabled(t, step) && (step.DoStreamData? || step.DoStreamControl?) && Arrival(t, step).None?
    ensures SameQueues(t, Apply(t, step))
  {
    hide Delay, MakeHandle, KeyQueued, Chunks;
  }

  lemma ArrivalApplies(t: Transport, step: Step)
    requires Enabled(t, step) && Arrival(t, step).Some?
    ensures var b := Arrival(t, step).value;
            b.ci < |t.conns| && Apply(t, step) == SetConn(t, b.ci, Queue(t.conns[b.ci], b.from, b.events))
  {
    hide MakeHandle, Chunks;
  }

  lemma ClosedIsInert(t: Transport, step: Step)
    requires t.closed && Enabled(t, step)
    ensures Apply(t, step) == t && !step.DoCreate? && Arrival(t, step).None?
  {
    hide Chunks, MakeHandle, TryFrom;
    assert Arrival(t, step).Some? ==> step.DoStreamData? || step.DoStreamControl?;
  }

  lemma SameIds(t: Transport, u: Transport)
    requires |u.conns| == |t.conns| && forall i :: 0 <= i < |t.conns| ==> u.conns[i].id == t.conns[i].id
    ensures Ids(u) == Ids(t)
  {
    forall id | id in Ids(t) ensures id in Ids(u) {
      var i :| 0 <= i < |t.conns| && t.conns[i].id == id;
      assert u.conns[i].id == id;
    }
    forall id | id in Ids(u) ensures id in Ids(t) {
      var i :| 0 <= i < |u.conns| && u.conns[i].id == id;
      assert t.conns[i].id == id;
    }
  }

  lemma StepIds(t: Transport, step: Step)
    requires Enabled(t, step)
    ensures Ids(Apply(t, step)) == Ids(t) + if step.DoCreate? then {step.id} else {}
  {
    var u := Apply(t, step);
    if step.DoCreate? {
      assert forall i :: 0 <= i < |t.conns| ==> u.conns[i] == t.conns[i];
      assert u.conns[|t.conns|].id == step.id;
      forall id | id in Ids(t) ensures id in Ids(u) {
        var i :| 0 <= i < |t.conns| && t.conns[i].id == id;
        assert u.conns[i].id == id;
      }
    } else if step.DoReceive? {
      FirstQueuedFinds(t.conns);
      hide Ids;
      SameIds(t, u);
    } else if step.DoShutdown? {
      hide Ids;
      SameIds(t, u);
    } else if Arrival(t, step).Some? {
      ArrivalApplies(t, step);
      hide Ids, Apply, Enabled, Arrival;
      SameIds(t, u);
    } else {
      QuietKeepsQueues(t, step);
      hide Ids, Apply, Enabled, Arrival;
      SameIds(t, u);
    }
  }

  // ---- the arena and the connections stay in step ----

  /** A queue of somebody else does not notice. */
  lemma OthersStayInStep(a: Arena<ConnId>, t: Transport, step: Step, realm: Realm, b: Arena<ConnId>, c: Conn)
    requires InStep(a, c) && ArenaChanges(a, t, step, realm, b) && c.id !in Ids(t)
    requires step.DoCreate? ==> step.id != c.id
    ensures InStep(b, c)
  {
    hide ArenaModel.Inv, Arrival, EventAt;
    match step
    case DoReceive =>
      FirstQueuedFinds(t.conns);
      var found := FirstQueued(t.conns);
      if !t.closed && found.Some? {
        assert t.conns[found.value].id in Ids(t);
      }
    case _ =>
      if Arrival(t, step).Some? && Arrival(t, step).value.ci < |t.conns| {
        assert t.conns[Arrival(t, step).value.ci].id in Ids(t);
      }
  }

  ghost predicate ConnsInStep(a: Arena<ConnId>, t: Transport) {
    forall i :: 0 <= i < |t.conns| ==> InStep(a, t.conns[i])
  }

  ghost predicate DistinctIds(t: Transport) {
    forall i, j :: 0 <= i < j < |t.conns| ==> t.conns[i].id != t.conns[j].id
  }

  lemma CreateStaysInStep(a: Arena<ConnId>, t: Transport, id: ConnId, realm: Realm)
    requires ConnsInStep(a, t) && id !in Ids(t)
    ensures ConnsInStep(Open(a, id, realm), AddConn(t, id))
  {
    var b, u := Open(a, id, realm), AddConn(t, id);
    forall i | 0 <= i < |u.conns| ensures InStep(b, u.conns[i]) {
      if i < |t.conns| {
        assert t.conns[i].id in Ids(t);
        assert InStep(a, t.conns[i]);
      } else {
        assert u.conns[i] == BackendConnections.Fresh(id);
        assert EventsIn([]) == [];
      }
    }
  }

  lemma ArrivalStaysInStep(a: Arena<ConnId>, t: Transport, batch: Batch, b: Arena<ConnId>)
    requires ConnsInStep(a, t) && DistinctIds(t) && batch.ci < |t.conns| && Grew(a, b, t.conns[batch.ci].id, batch.events)
    ensures ConnsInStep(b, SetConn(t, batch.ci, Queue(t.conns[batch.ci], batch.from, batch.events)))
  {
    var c := t.conns[batch.ci];
    var u := SetConn(t, batch.ci, Queue(c, batch.from, batch.events));
    EventsInConcat(c.accepted, Tagged(c, batch.from, batch.events));
    TaggedEvents(c, batch.from, batch.events);
    hide EventsIn, Tagged;
    forall i | 0 <= i < |u.conns| ensures InStep(b, u.conns[i]) {
      assert InStep(a, t.conns[i]);
    }
  }

  lemma ReceiveStaysInStep(a: Arena<ConnId>, t: Transport, ci: nat)
    requires ConnsInStep(a, t) && DistinctIds(t) && ci < |t.conns| && t.conns[ci].taken < |t.conns[ci].accepted|
    requires PopReady(a, t.conns[ci].id)
    ensures ConnsInStep(Pop(a, t.conns[ci].id), TakeFrom(t, ci))
  {
    var b, u := Pop(a, t.conns[ci].id), TakeFrom(t, ci);
    hide EventAt, EventsIn;
    forall i | 0 <= i < |u.conns| ensures InStep(b, u.conns[i]) {
      assert InStep(a, t.conns[i]);
    }
  }

  lemma ShutdownStaysInStep(a: Arena<ConnId>, t: Transport, b: Arena<ConnId>)
    requires ConnsInStep(a, t) && !t.closed && Dropped(a, b, Ids(t))
    ensures ConnsInStep(b, Close(t))
  {
    var u := Close(t);
    forall i | 0 <= i < |u.conns| ensures InStep(b, u.conns[i]) {
      assert InStep(a, t.conns[i]) && t.conns[i].id in Ids(t);
    }
  }

  lemma {:induction false} StepStaysInStep(a: Arena<ConnId>, t: Transport, step: Step, realm: Realm, b: Arena<ConnId>)
    requires Enabled(t, step) && ArenaChanges(a, t, step, realm, b)
    requires ConnsInStep(a, t) && DistinctIds(t)
    ensures ConnsInStep(b, Apply(t, step))
  {
    hide InStep, Dropped, Grew, PopReady, Open, Pop, ArenaModel.Inv;
    if step.DoCreate? {
      CreateStaysInStep(a, t, step.id, realm);
    } else if step.DoReceive? {
      FirstQueuedFinds(t.conns);
      if !t.closed && FirstQueued(t.conns).Some? {
        ReceiveStaysInStep(a, t, FirstQueued(t.conns).value);
      }
      hide FirstQueued;
    } else if step.DoShutdown? {
      if !t.closed {
        ShutdownStaysInStep(a, t, b);
      }
    } else if Arrival(t, step).Some? {
      ArrivalApplies(t, step);
      ArrivalStaysInStep(a, t, Arrival(t, step).value, b);
      hide Apply, Enabled, Arrival, ConnsInStep;
    } else {
      QuietKeepsQueues(t, step);
      hide Apply, Enabled, Arrival;
      SameQueuesInStep(a, t, Apply(t, step));
    }
  }

  lemma SameQueuesInStep(a: Arena<ConnId>, t: Transport, u: Transport)
    requires ConnsInStep(a, t) && SameQueues(t, u)
    ensures ConnsInStep(a, u)
  {
    forall i | 0 <= i < |u.conns| ensures InStep(a, u.conns[i]) {
      assert InStep(a, t.conns[i]);
    }
  }

  // ---- every step keeps the invariant ----

  lemma {:induction false} QueuedUpdate(transports: seq<Transport>, ti: nat, u: Transport)
    requires ti < |transports|
    ensures Queued(transports[ti := u]) + |transports[ti].pending| == Queued(transports) + |u.pending|
  {
    if ti == 0 {
      assert transports[ti := u][1..] == transports[1..];
    } else {
      assert transports[ti := u][1..] == transports[1..][ti - 1 := u];
      QueuedUpdate(transports[1..], ti - 1, u);
    }
  }

  lemma {:induction false} QueuedAppend(transports: seq<Transport>, u: Transport)
    ensures Queued(transports + [u]) == Queued(transports) + |u.pending|
  {
    if transports == [] {
      assert transports + [u] == [u];
    } else {
      assert (transports + [u])[1..] == transports[1..] + [u];
      QueuedAppend(transports[1..], u);
    }
  }

  lemma {:induction false} ArenaKeepsInv(w: Worker, s: WorkerStep)
    requires WorkerInv(w) && WorkerEnabled(w, s) && s.OnTransport?
    ensures ArenaModel.Inv(s.after)
  {
    var t, step := w.transports[s.ti], s.step;
    FollowingChanges(w.arena, t, step, s.realm, s.after);
    hide ArenaFollows;
    if step.DoCreate? {
      hide ArenaModel.Inv;
      OpenKeepsInv(w.arena, step.id, s.realm);
    } else if step.DoReceive? {
      FirstQueuedFinds(t.conns);
      if !t.closed && FirstQueued(t.conns).Some? {
        hide ArenaModel.Inv;
        PopKeepsInv(w.arena, t.conns[FirstQueued(t.conns).value].id);
      }
    }
  }

  lemma {:induction false} TransportKeepsInv(w: Worker, s: WorkerStep)
    requires WorkerInv(w) && WorkerEnabled(w, s) && s.OnTransport?
    ensures TransportInv(s.after, Apply(w.transports[s.ti], s.step))
  {
    var t, step := w.transports[s.ti], s.step;
    assert TransportInv(w.arena, t);
    FollowingChanges(w.arena, t, step, s.realm, s.after);
    DirectSafety.StepKeepsInv(t, step);
    assert DistinctIds(t) by { assert DirectSafety.ConnsInv(t); }
    StepStaysInStep(w.arena, t, step, s.realm, s.after);
    ClosingDrains(t, step);
    hide DirectSafety.Inv, ConnsInStep, Apply, Enabled, ArenaFollows, ArenaChanges, ArenaModel.Inv, IdsInv;
  }

  /** A transport is closed only by shutdown, which leaves it empty, and then it stays as it is. */
  lemma ClosingDrains(t: Transport, step: Step)
    requires Enabled(t, step)
    requires t.closed ==> t.pending == [] && forall i :: 0 <= i < |t.conns| ==> t.conns[i].taken == |t.conns[i].accepted|
    ensures var u := Apply(t, step);
            u.closed ==> u.pending == [] && forall i :: 0 <= i < |u.conns| ==> u.conns[i].taken == |u.conns[i].accepted|
  {
    if t.closed {
      ClosedIsInert(t, step);
    } else if step.DoReceive? {
      FirstQueuedFinds(t.conns);
    } else if !step.DoCreate? && !step.DoShutdown? {
      if Arrival(t, step).Some? {
        ArrivalApplies(t, step);
      } else {
        QuietKeepsQueues(t, step);
      }
      hide Apply, Enabled, Arrival;
    }
  }

  lemma {:induction false} IdsKeep(w: Worker, s: WorkerStep)
    requires WorkerInv(w) && WorkerEnabled(w, s) && s.OnTransport?
    ensures IdsInv(WorkerApply(w, s))
  {
    hide Ids, Apply, Enabled, ArenaFollows, ArenaChanges, ArenaModel.Inv, TransportInv;
    var t, step := w.transports[s.ti], s.step;
    StepIds(t, step);
    FollowingChanges(w.arena, t, step, s.realm, s.after);
    QueuesFollow(w.arena, t, step, s.realm, s.after);
    if step.DoCreate? {
      MoreIds(w.transports, s.ti, Apply(t, step), w.nextConnId, w.arena.layout.queues.Keys);
    } else {
      EqualIds(w.transports, s.ti, Apply(t, step), w.nextConnId, w.arena.layout.queues.Keys);
      assert w.arena.layout.queues.Keys + {} == w.arena.layout.queues.Keys;
    }
  }

  lemma EqualIds(transports: seq<Transport>, ti: nat, u: Transport, next: nat, queues: set<ConnId>)
    requires ti < |transports| && Ids(u) == Ids(transports[ti])
    requires IdsUnique(transports, next) && QueuesOwned(transports, queues)
    ensures IdsUnique(transports[ti := u], next) && QueuesOwned(transports[ti := u], queues)
  {
    hide Ids;
    var after := transports[ti := u];
    forall l | l in queues ensures exists tj :: 0 <= tj < |after| && l in Ids(after[tj]) {
      var tj :| 0 <= tj < |transports| && l in Ids(transports[tj]);
      assert l in Ids(after[tj]);
    }
  }

  lemma MoreIds(transports: seq<Transport>, ti: nat, u: Transport, next: ConnId, queues: set<ConnId>)
    requires ti < |transports| && Ids(u) == Ids(transports[ti]) + {next}
    requires IdsUnique(transports, next) && QueuesOwned(transports, queues)
    ensures IdsUnique(transports[ti := u], (next as nat) + 1) && QueuesOwned(transports[ti := u], queues + {next})
  {
    hide Ids;
    var after := transports[ti := u];
    forall l | l in queues + {next} ensures exists tj :: 0 <= tj < |after| && l in Ids(after[tj]) {
      if l in queues {
        var tj :| 0 <= tj < |transports| && l in Ids(transports[tj]);
        assert l in Ids(after[tj]);
      } else {
        assert l in Ids(after[ti]);
      }
    }
  }

  lemma QueuesFollow(a: Arena<ConnId>, t: Transport, step: Step, realm: Realm, b: Arena<ConnId>)
    requires ArenaChanges(a, t, step, realm, b)
    ensures b.layout.queues.Keys == a.layout.queues.Keys + if step.DoCreate? then {step.id} else {}
  {
    hide ArenaModel.Inv, Arrival;
    if step.DoReceive? {
      FirstQueuedFinds(t.conns);
    }
  }

  lemma {:induction false} OthersKeepInv(w: Worker, s: WorkerStep, tj: nat)
    requires WorkerInv(w) && WorkerEnabled(w, s) && s.OnTransport? && tj < |w.transports| && tj != s.ti
    ensures TransportInv(s.after, w.transports[tj])
  {
    var u := w.transports[tj];
    assert TransportInv(w.arena, u);
    FollowingChanges(w.arena, w.transports[s.ti], s.step, s.realm, s.after);
    hide DirectSafety.Inv, ArenaModel.Inv, ArenaFollows, ArenaChanges, InStep, Enabled;
    forall i | 0 <= i < |u.conns| ensures InStep(s.after, u.conns[i]) {
      assert InStep(w.arena, u.conns[i]) && u.conns[i].id in Ids(u);
      OthersStayInStep(w.arena, w.transports[s.ti], s.step, s.realm, s.after, u.conns[i]);
    }
  }

  lemma GiveBackKeepsInv(w: Worker, slot: nat)
    requires WorkerInv(w) && Loaned(w.arena, slot)
    ensures WorkerInv(w.(arena := Release(w.arena, slot)))
  {
    ReleaseKeepsInv(w.arena, slot);
    var a := Release(w.arena, slot);
    assert a.layout.queues == w.arena.layout.queues && a.accepted == w.arena.accepted && a.popped == w.arena.popped;
    hide ArenaModel.Inv, DirectSafety.Inv, EventsIn;
    forall ti | 0 <= ti < |w.transports| ensures TransportInv(a, w.transports[ti]) {
      assert TransportInv(w.arena, w.transports[ti]);
    }
  }

  lemma NewTransportKeepsInv(w: Worker)
    requires WorkerInv(w)
    ensures WorkerInv(w.(transports := w.transports + [DirectModel.Initial()]))
  {
    DirectTheorems.InitialInv();
    QueuedAppend(w.transports, DirectModel.Initial());
    assert Ids(DirectModel.Initial()) == {};
    hide ArenaModel.Inv, DirectSafety.Inv, InStep, Ids;
    assert TransportInv(w.arena, DirectModel.Initial());
    hide TransportInv, DirectModel.Initial;
    OneMore(w.transports, DirectModel.Initial(), w.nextConnId, w.arena.layout.queues.Keys);
    hide IdsUnique, QueuesOwned;
  }

  lemma OneMore(transports: seq<Transport>, u: Transport, next: nat, queues: set<ConnId>)
    requires Ids(u) == {} && IdsUnique(transports, next) && QueuesOwned(transports, queues)
    ensures IdsUnique(transports + [u], next) && QueuesOwned(transports + [u], queues)
  {
    hide Ids;
    var after := transports + [u];
    forall l | l in queues ensures exists tj :: 0 <= tj < |after| && l in Ids(after[tj]) {
      var tj :| 0 <= tj < |transports| && l in Ids(transports[tj]);
      assert l in Ids(after[tj]);
    }
  }

  lemma {:induction false} WorkerStepKeepsInv(w: Worker, s: WorkerStep)
    requires WorkerInv(w) && WorkerEnabled(w, s)
    ensures WorkerInv(WorkerApply(w, s))
  {
    match s
    case NewTransport => NewTransportKeepsInv(w);
    case GiveBack(slot) => GiveBackKeepsInv(w, slot);
    case OnTransport(ti, step, _, after) =>
      hide ArenaModel.Inv, IdsInv, TransportInv, Apply, Enabled, ArenaFollows, Release;
      ArenaKeepsInv(w, s);
      TransportKeepsInv(w, s);
      IdsKeep(w, s);
      QueuedUpdate(w.transports, ti, Apply(w.transports[ti], step));
      var v := WorkerApply(w, s);
      forall tj | 0 <= tj < |v.transports| ensures TransportInv(v.arena, v.transports[tj]) {
        if tj != ti {
          OthersKeepInv(w, s, tj);
        }
      }
  }

  ghost predicate WorkerCanRun(w: Worker, steps: seq<WorkerStep>)
    decreases |steps|
  {
    steps == [] || (WorkerEnabled(w, steps[0]) && WorkerCanRun(WorkerApply(w, steps[0]), steps[1..]))
  }

  ghost function WorkerRun(w: Worker, steps: seq<WorkerStep>): Worker
    requires WorkerCanRun(w, steps)
    decreases |steps|
  {
    if steps == [] then w else WorkerRun(WorkerApply(w, steps[0]), steps[1..])
  }

  lemma {:induction false} WorkerRunKeepsInv(w: Worker, steps: seq<WorkerStep>)
    requires WorkerInv(w) && WorkerCanRun(w, steps)
    ensures WorkerInv(WorkerRun(w, steps))
    decreases |steps|
  {
    hide WorkerInv, WorkerEnabled, WorkerApply;
    if steps != [] {
      WorkerStepKeepsInv(w, steps[0]);
      WorkerRunKeepsInv(WorkerApply(w, steps[0]), steps[1..]);
    }
  }

  /** A Worker before its first transport, over an arena without queues. */
  ghost predicate Starts(w: Worker) {
    && ArenaModel.Inv(w.arena) && w.arena.layout.queues == map[] && w.failures == 0 && w.nextConnId == 0 && w.transports == []
  }

  // ---- the drain fast path is exact ----

  /** What the drain loop asks instead of polling every transport. */
  ghost predicate IdleAnswer(w: Worker) {
    w.arena.freeCount == |w.arena.layout.slots| && w.failures == 0
  }

  /** Polling transport `t` finds nothing, or it is closed. */
  predicate NothingToReceive(t: Transport) {
    t.closed || Receive(t).1 == Ok(None)
  }

  lemma {:induction false} NoneQueued(transports: seq<Transport>)
    ensures Queued(transports) == 0 <==> forall ti :: 0 <= ti < |transports| ==> transports[ti].pending == []
  {
    if transports != [] {
      NoneQueued(transports[1..]);
      assert forall ti :: 0 < ti < |transports| ==> transports[ti] == transports[1..][ti - 1];
      if Queued(transports) == 0 {
        forall ti | 0 <= ti < |transports| ensures transports[ti].pending == [] {
          assert ti > 0 ==> transports[1..][ti - 1].pending == [];
        }
      }
    }
  }

  lemma {:induction false} PollFindsNothing(a: Arena<ConnId>, t: Transport)
    requires ArenaModel.Inv(a) && TransportInv(a, t)
    ensures NothingToReceive(t) <==>
              (t.closed || t.pending == []) && forall i :: 0 <= i < |t.conns| ==> a.layout.queues[t.conns[i].id] == []
  {
    FirstQueuedFinds(t.conns);
    hide ArenaModel.Inv, DirectSafety.Inv, Feeds, FirstQueued;
    forall i | 0 <= i < |t.conns|
      ensures t.conns[i].id in a.layout.queues
      ensures t.conns[i].taken == |t.conns[i].accepted| <==> a.layout.queues[t.conns[i].id] == []
      ensures t.conns[i].taken <= |t.conns[i].accepted|
    {
      assert InStep(a, t.conns[i]);
      InStepHasQueue(a, t.conns[i]);
      DrainedMeansEmptyQueue(a, t.conns[i].id, t.conns[i]);
      TakenFits(t, i);
    }
  }

  lemma TakenFits(t: Transport, i: nat)
    requires DirectSafety.Inv(t) && i < |t.conns|
    ensures t.conns[i].taken <= |t.conns[i].accepted|
  {
    assert ConnInv(t.conns[i]);
  }

  lemma InStepHasQueue(a: Arena<ConnId>, c: Conn)
    requires InStep(a, c)
    ensures c.id in a.layout.queues && Feeds(a, c.id, c)
  {
  }

  /** In every reachable state the idle answer is yes exactly when receive on every open transport
      has nothing and the Worker holds no slot on loan. */
  lemma IdleIsExact(w: Worker, steps: seq<WorkerStep>)
    requires Starts(w) && WorkerCanRun(w, steps)
    ensures var v := WorkerRun(w, steps);
            IdleAnswer(v) <==>
              (forall ti :: 0 <= ti < |v.transports| ==> NothingToReceive(v.transports[ti])) && (forall slot :: !Loaned(v.arena, slot))
  {
    StartHolds(w);
    WorkerRunKeepsInv(w, steps);
    IdleDecides(WorkerRun(w, steps));
  }

  lemma StartHolds(w: Worker)
    requires Starts(w)
    ensures WorkerInv(w)
  {
  }

  lemma {:induction false} IdleDecides(w: Worker)
    requires WorkerInv(w)
    ensures IdleAnswer(w) <==>
              (forall ti :: 0 <= ti < |w.transports| ==> NothingToReceive(w.transports[ti])) && (forall slot :: !Loaned(w.arena, slot))
  {
    FreeCountDecidesIdle(w.arena);
    NoneQueued(w.transports);
    hide ArenaModel.Inv, DirectSafety.Inv, Loaned, NothingToReceive, InStep, Queued;
    forall ti | 0 <= ti < |w.transports|
      ensures NothingToReceive(w.transports[ti]) <==>
                && w.transports[ti].pending == []
                && forall l :: l in Ids(w.transports[ti]) ==> l in w.arena.layout.queues && w.arena.layout.queues[l] == []
    {
      assert TransportInv(w.arena, w.transports[ti]);
      PollByIds(w.arena, w.transports[ti]);
    }
    hide TransportInv, Ids;
    if forall ti :: 0 <= ti < |w.transports| ==> NothingToReceive(w.transports[ti]) {
      forall l | l in w.arena.layout.queues ensures w.arena.layout.queues[l] == [] {
        var ti :| 0 <= ti < |w.transports| && l in Ids(w.transports[ti]);
        assert NothingToReceive(w.transports[ti]);
      }
    }
    if AllQuiet(w.arena) && w.failures == 0 {
      QuietIds(w);
    }
  }

  lemma {:induction false} PollByIds(a: Arena<ConnId>, t: Transport)
    requires ArenaModel.Inv(a) && TransportInv(a, t)
    ensures NothingToReceive(t) <==>
              t.pending == [] && forall l :: l in Ids(t) ==> l in a.layout.queues && a.layout.queues[l] == []
  {
    PollFindsNothing(a, t);
    hide ArenaModel.Inv, DirectSafety.Inv, NothingToReceive;
    forall i | 0 <= i < |t.conns| ensures t.conns[i].id in Ids(t) && t.conns[i].id in a.layout.queues {
      assert InStep(a, t.conns[i]);
    }
  }

  lemma QuietIds(w: Worker)
    requires WorkerInv(w)
    ensures forall ti, l :: 0 <= ti < |w.transports| && l in Ids(w.transports[ti]) ==> l in w.arena.layout.queues
  {
    hide ArenaModel.Inv, DirectSafety.Inv;
    forall ti, l | 0 <= ti < |w.transports| && l in Ids(w.transports[ti]) ensures l in w.arena.layout.queues {
      assert TransportInv(w.arena, w.transports[ti]);
      var i :| 0 <= i < |w.transports[ti].conns| && w.transports[ti].conns[i].id == l;
      assert InStep(w.arena, w.transports[ti].conns[i]);
    }
  }

  // ---- a handle names one stream on the Worker ----

  /** Streams opened on two different transports of one Worker never share a handle. */
  lemma HandlesTellTransportsApart(w: Worker, steps: seq<WorkerStep>, ti: nat, tj: nat, k: nat, l: nat)
    requires Starts(w) && WorkerCanRun(w, steps)
    requires var v := WorkerRun(w, steps);
             ti < tj < |v.transports| && k < |v.transports[ti].streams| && l < |v.transports[tj].streams|
    ensures var v := WorkerRun(w, steps); v.transports[ti].streams[k].handle != v.transports[tj].streams[l].handle
  {
    StartHolds(w);
    WorkerRunKeepsInv(w, steps);
    ApartInState(WorkerRun(w, steps), ti, tj, k, l);
  }

  lemma {:induction false} ApartInState(v: Worker, ti: nat, tj: nat, k: nat, l: nat)
    requires WorkerInv(v) && ti < tj < |v.transports|
    requires k < |v.transports[ti].streams| && l < |v.transports[tj].streams|
    ensures v.transports[ti].streams[k].handle != v.transports[tj].streams[l].handle
  {
    var (t, u) := (v.transports[ti], v.transports[tj]);
    hide ArenaModel.Inv, DirectSafety.Inv, ConnsInStep, Ids, QueuesOwned;
    assert TransportInv(v.arena, t) && TransportInv(v.arena, u);
    StreamFields(t, k);
    StreamFields(u, l);
    assert t.streams[k].id in Ids(t) && u.streams[l].id in Ids(u) && t.streams[k].id !in Ids(u);
    hide *;
    TwoStreamsApart(t.streams[k], u.streams[l]);
  }

  lemma TwoStreamsApart(a: OpenedStream, b: OpenedStream)
    requires a.id != b.id
    requires a.handle == MakeHandle(a.id, a.epoch % GENERATIONS, a.stream)
    requires b.handle == MakeHandle(b.id, b.epoch % GENERATIONS, b.stream)
    ensures a.handle != b.handle
  {
    DistinctFieldsDistinctHandles(a.id, a.epoch % GENERATIONS, a.stream, b.id, b.epoch % GENERATIONS, b.stream);
  }

  lemma StreamFields(t: Transport, k: nat)
    requires DirectSafety.Inv(t) && k < |t.streams|
    ensures var o := t.streams[k]; o.id in Ids(t) && o.handle == MakeHandle(o.id, o.epoch % GENERATIONS, o.stream)
  {
    assert DirectSafety.StreamKnown(t.conns, t.streams[k]);
  }
}
