/** The direct transport as the code has it: connection objects with their own fields, a transport
    that owns them, and a pool borrowed from the Worker. Every method is tied to the function of
    the model that says what it does. */
module DirectTransports {
  import opened Options
  import opened RealmQuota
  import opened Words
  import opened StreamHandles
  import opened ProbeTable
  import opened ConnectionIndex
  import opened SlotChains
  import opened ArenaModel
  import opened ReceiveArena
  import opened WorkerPool
  import opened BackendConnections
  import opened DirectModel
  import opened ArenaLink
  import opened DirectIndex

  datatype Endpoint = Endpoint(host: seq<Byte>, port: nat)

  /** What receive hands out: the chunk, the slot to give back, and who opened the stream. */
  datatype TransportRecv = TransportRecv(event: Event, token: nat, peerInitiated: bool)

  class BackendConn {
    const id: ConnId
    const endpoint: Endpoint
    const queue: SlotList
    var generation: Generation
    var state: ConnState
    var cnx: Option<Cnx>
    var failureCount: nat
    var retryAt: nat
    var nextStream: nat
    /** The resolver's handle of a lookup is held. */
    var held: bool
    /** The connection with its history. */
    ghost var model: Conn

    ghost predicate Valid()
      reads this
    {
      && model.id == id && model.generation == generation && model.state == state && model.cnx == cnx
      && model.failureCount == failureCount && model.retryAt == retryAt && model.nextStream == nextStream && model.held == held
    }

    constructor (id: ConnId, endpoint: Endpoint, queue: SlotList)
      ensures Valid() && model == BackendConnections.Fresh(id)
      ensures this.id == id && this.endpoint == endpoint && this.queue == queue
    {
      this.id, this.endpoint, this.queue := id, endpoint, queue;
      generation, state, cnx, failureCount, retryAt, nextStream, held := 0, Idle, None, 0, 0, 0, false;
      model := BackendConnections.Fresh(id);
    }

    method MarkFailed(now: nat)
      requires Valid()
      modifies this
      ensures Valid() && model == BackendConnections.MarkFailed(old(model), now)
    {
      hide Delay;
      failureCount := Min(failureCount + 1, U32_MAX);
      retryAt := now + Delay(failureCount);
      state := Backoff;
      model := BackendConnections.MarkFailed(model, now);
    }

    /** `started` says whether the lookup could be issued. */
    method EnsureConnecting(now: nat, started: bool)
      requires Valid()
      modifies this
      ensures Valid() && model == BackendConnections.EnsureConnecting(old(model), now, started)
    {
      hide Delay;
      if state == Ready || state == Connecting {
        return;
      }
      if state == Backoff && now < retryAt {
        return;
      }
      state := Connecting;
      if started {
        held := true;
        model := BackendConnections.EnsureConnecting(model, now, started);
      } else {
        model := model.(state := Connecting);
        MarkFailed(now);
      }
    }

    method HookConnected(from: Cnx)
      requires Valid()
      modifies this
      ensures Valid() && model == BackendConnections.HookConnected(old(model), from)
    {
      generation := (generation + 1) % GENERATIONS;
      nextStream := 0;
      state := Ready;
      failureCount := 0;
      retryAt := 0;
      model := BackendConnections.HookConnected(model, from);
    }

    /** The answer to a lookup, once the pool has registered the new QUIC connection or refused to. */
    method OnResolved(r: Resolution, now: nat)
      requires Valid() && model.resolving > 0
      modifies this
      ensures Valid() && model == BackendConnections.OnResolved(old(model), r, now)
    {
      hide Delay;
      ghost var before := model;
      held := false;
      model := model.(held := false);
      match r {
        case DnsFailed =>
        case ConnectFailed => MarkFailed(now);
        case RegisterRefused => MarkFailed(now);
        case Established(c) => cnx := Some(c);
      }
      model := BackendConnections.OnResolved(before, r, now);
    }

    /** The QUIC connection is about to go away. */
    method DropHandle()
      requires Valid()
      modifies this
      ensures Valid() && model == old(model).(cnx := None)
    {
      cnx := None;
      model := model.(cnx := None);
    }

    /** Detached for good, and the lookup whose handle is held cancelled. */
    method End()
      requires Valid()
      modifies this
      ensures Valid() && model == Ended(old(model))
    {
      held := false;
      cnx := None;
      state := Idle;
      model := Ended(model);
    }

    ghost method Record(from: Cnx, events: seq<Event>)
      requires Valid()
      modifies this`model
      ensures Valid() && model == BackendConnections.Queue(old(model), from, events)
    {
      model := BackendConnections.Queue(model, from, events);
    }

    method NextBidiStreamId() returns (stream: StreamId)
      requires Valid() && nextStream < STREAM_IDS
      modifies this
      ensures Valid() && stream == old(nextStream) && model == old(model).(nextStream := old(nextStream) + 4)
    {
      stream := nextStream;
      nextStream := nextStream + 4;
      model := model.(nextStream := nextStream);
    }

    /** `w` is what QUIC answers: whether the connection is up, and whether it took the write. `wrote`
        is the write QUIC was given: on which connection, and on which of its streams. */
    method SendOn(handle: Option<Word>, w: WriteOutcome) returns (r: Result<Word, TransportError>, wrote: Option<(Cnx, StreamId)>)
      requires Valid() && (handle.None? ==> nextStream < STREAM_IDS)
      modifies this
      ensures Valid() && (model, r) == BackendConnections.SendOn(old(model), handle, w)
      ensures wrote == WrittenTo(old(model), handle, w)
    {
      hide MakeHandle, HandleConnId, HandleGeneration, HandleStreamId;
      if cnx.None? {
        return Err(ConnectionFailed), None;
      }
      if w.NotConnected? {
        return Err(ConnectionFailed), None;
      }
      var stream: StreamId;
      if handle.Some? {
        if HandleConnId(handle.value) != id || HandleGeneration(handle.value) != generation {
          return Err(TransportError.Closed), None;
        }
        stream := HandleStreamId(handle.value);
      } else {
        stream := NextBidiStreamId();
      }
      wrote := Some((cnx.value, stream));
      if w.Rejected? {
        return Err(SendFailed), wrote;
      }
      return Ok(MakeHandle(id, generation, stream)), wrote;
    }
  }

  /** The connection objects hold what the model says of them. */
  ghost predicate ConnsMatch(conns: seq<BackendConn>, models: seq<Conn>)
    reads conns
  {
    && |conns| == |models|
    && (forall i :: 0 <= i < |conns| ==> conns[i].Valid() && conns[i].model == models[i])
    && (forall i, j :: 0 <= i < j < |conns| ==> conns[i] != conns[j])
  }

  ghost predicate PendingMatch(keys: seq<ConnKey>, pending: seq<Failure>) {
    |keys| == |pending| && forall k :: 0 <= k < |keys| ==> keys[k] == pending[k].Key()
  }

  /** Every connection has its own queue in the shared arena, in step with its history. */
  ghost predicate InStep(conns: seq<BackendConn>, a: Arena<SlotList>, t: Transport) {
    && |conns| == |t.conns|
    && (forall i :: 0 <= i < |conns| ==> Feeds(a, conns[i].queue, t.conns[i]))
    && (forall i, j :: 0 <= i < j < |conns| ==> conns[i].queue != conns[j].queue)
  }

  class DirectTransport {
    const pool: BackendPool
    const realm: Realm
    var conns: seq<BackendConn>
    var nextConn: nat
    var closed: bool
    var pendingFailures: seq<ConnKey>
    var lastFailureConn: ConnKey
    /** The transport with its history. */
    ghost var model: Transport

    /** The fields in memory are the ones of the model. */
    ghost predicate Represents()
      reads this, conns
    {
      && ConnsMatch(conns, model.conns) && PendingMatch(pendingFailures, model.pending)
      && nextConn == model.next && closed == model.closed && lastFailureConn == model.lastFailure
    }

    /** Valid, with the arena as `a` has it. */
    ghost predicate ValidAgainst(a: Arena<SlotList>)
      reads this, conns, pool`pendingFailures
    {
      Represents() && InStep(conns, a, model) && |pendingFailures| <= pool.pendingFailures
    }

    /** The pool and its arena are valid on their own account; they belong to the Worker. */
    ghost predicate Valid()
      reads this, conns, pool`pendingFailures, pool.arena`model
    {
      ValidAgainst(pool.arena.model)
    }

    lemma Parts()
      ensures Valid() <==> Represents() && InStep(conns, pool.arena.model, model) && |pendingFailures| <= pool.pendingFailures
      ensures Valid() ==> |conns| == |model.conns| && ValidAgainst(pool.arena.model)
    {
    }

    lemma PartsAgainst(a: Arena<SlotList>)
      requires ValidAgainst(a)
      ensures Represents() && InStep(conns, a, model) && |conns| == |model.conns| && |pendingFailures| <= pool.pendingFailures
    {
    }

    /** Events that touch neither the arena nor any queue leave the queues in step. */
    static lemma StillInStep(conns: seq<BackendConn>, a: Arena<SlotList>, t: Transport, u: Transport)
      requires InStep(conns, a, t) && SameQueues(t, u)
      ensures InStep(conns, a, u)
    {
      forall i | 0 <= i < |conns| ensures Feeds(a, conns[i].queue, u.conns[i]) {
        assert Feeds(a, conns[i].queue, t.conns[i]);
      }
    }

    /** A batch of events reaches the arena and the connection together. */
    static lemma GrownInStep(conns: seq<BackendConn>, a: Arena<SlotList>, b: Arena<SlotList>, t: Transport, ci: nat,
                             from: Cnx, events: seq<Event>)
      requires InStep(conns, a, t) && ci < |conns| && Grew(a, b, conns[ci].queue, events)
      ensures InStep(conns, b, SetConn(t, ci, Queue(t.conns[ci], from, events)))
    {
      var c := t.conns[ci];
      EventsInConcat(c.accepted, Tagged(c, from, events));
      TaggedEvents(c, from, events);
      hide EventsIn, Tagged;
      forall i | 0 <= i < |conns| ensures Feeds(b, conns[i].queue, SetConn(t, ci, Queue(c, from, events)).conns[i]) {
        assert Feeds(a, conns[i].queue, t.conns[i]);
      }
    }

    static lemma SetKeepsQueues(t: Transport, ci: nat, d: Conn)
      requires ci < |t.conns| && d.id == t.conns[ci].id && d.accepted == t.conns[ci].accepted && d.taken == t.conns[ci].taken
      ensures SameQueues(t, SetConn(t, ci, d))
    {
    }

    constructor (pool: BackendPool, realm: Realm)
      ensures Valid() && model == DirectModel.Initial() && this.pool == pool && this.realm == realm
    {
      this.pool, this.realm := pool, realm;
      conns, nextConn, closed, pendingFailures, lastFailureConn := [], 0, false, [], 0;
      model := DirectModel.Initial();
    }

    // ---- failures ----

    /** Queues one failure unless its key is queued already, and keeps the pool's count. */
    method SignalFailure(key: ConnKey, ghost f: Failure)
      requires PendingMatch(pendingFailures, model.pending) && key == f.Key()
      modifies this`pendingFailures, this`model, pool`pendingFailures
      ensures PendingMatch(pendingFailures, model.pending) && model == Signal(old(model), f)
      ensures pool.pendingFailures - |pendingFailures| == old(pool.pendingFailures - |pendingFailures|)
    {
      hide ConnectionKey;
      assert model.pending[0..] == model.pending;
      for i := 0 to |pendingFailures|
        invariant KeyQueued(model.pending, key) == KeyQueued(model.pending[i..], key)
      {
        assert model.pending[i..][1..] == model.pending[i + 1..];
        if pendingFailures[i] == key {
          return;
        }
      }
      pendingFailures := pendingFailures + [key];
      pool.SignalFailure();
      model := Signal(model, f);
    }

    /** Signals the current generation of a connection, then lets it back off. */
    method FailConn(ci: nat, now: nat)
      requires Represents() && ci < |conns|
      modifies this`pendingFailures, this`model, conns[ci], pool`pendingFailures
      ensures Represents() && model == Fail(old(model), ci, now)
      ensures pool.pendingFailures - |pendingFailures| == old(pool.pendingFailures - |pendingFailures|)
    {
      hide Signal, BackendConnections.MarkFailed, ConnectionKey;
      var c := conns[ci];
      ghost var before := model;
      SignalFailure(ConnectionKey(c.id, c.generation), FailureOf(model.conns[ci]));
      SignalKeeps(before, FailureOf(before.conns[ci]));
      c.MarkFailed(now);
      model := Fail(before, ci, now);
    }

    // ---- state machine events of one connection ----

    method HookConnected(ci: nat, from: Cnx)
      requires Valid() && ci < |conns|
      modifies this`model, conns[ci]
      ensures Valid() && model == SetConn(old(model), ci, BackendConnections.HookConnected(old(model).conns[ci], from))
    {
      hide InStep, Feeds, PendingMatch, SameQueues, Delay;
      ghost var t := model;
      ghost var d := BackendConnections.HookConnected(model.conns[ci], from);
      SetKeepsQueues(model, ci, d);
      ConnOf(ci);
      conns[ci].HookConnected(from);
      model := SetConn(model, ci, d);
      StillInStep(conns, pool.arena.model, t, model);
    }

    method EnsureConnecting(ci: nat, now: nat, started: bool)
      requires Valid() && ci < |conns|
      modifies this`model, conns[ci]
      ensures Valid() && model == SetConn(old(model), ci, BackendConnections.EnsureConnecting(old(model).conns[ci], now, started))
    {
      hide InStep, Feeds, PendingMatch, BackendConnections.EnsureConnecting, SameQueues;
      ghost var t := model;
      ghost var d := BackendConnections.EnsureConnecting(model.conns[ci], now, started);
      EnsureKeepsQueues(t, ci, now, started);
      ConnOf(ci);
      conns[ci].EnsureConnecting(now, started);
      model := SetConn(model, ci, d);
      StillInStep(conns, pool.arena.model, t, model);
    }

    static lemma EnsureKeepsQueues(t: Transport, ci: nat, now: nat, started: bool)
      requires ci < |t.conns|
      ensures SameQueues(t, SetConn(t, ci, BackendConnections.EnsureConnecting(t.conns[ci], now, started)))
    {
      hide Delay;
    }

    /** A new QUIC connection is registered under its connection, or given up at once. */
    method RegisterNew(r: Resolution, owner: Owner) returns (outcome: Resolution)
      requires pool.Valid()
      modifies pool`live, pool.index, pool.index.entries
      ensures pool.Valid()
      ensures outcome == if r.Established? && !old(Registrable(r.cnx)) then RegisterRefused else r
      ensures pool.index.Contents == if outcome.Established? then old(pool.index.Contents)[outcome.cnx := owner] else old(pool.index.Contents)
    {
      outcome := r;
      if r.Established? {
        var ok := pool.Register(r.cnx, owner);
        if ok.Err? {
          outcome := RegisterRefused;
        }
      }
    }

    ghost predicate Registrable(cnx: Cnx)
      reads pool.index
    {
      cnx in pool.index.Contents || |pool.index.Contents| < pool.maxConns
    }

    /** A lookup was answered: nothing happens on a closed transport. */
    method OnResolved(ci: nat, r: Resolution, now: nat) returns (outcome: Resolution)
      requires Valid() && pool.Valid() && ci < |conns| && model.conns[ci].resolving > 0 && !r.RegisterRefused?
      modifies this`model, conns[ci], pool`live, pool.index, pool.index.entries
      ensures Valid() && pool.Valid()
      ensures outcome == if r.Established? && !closed && !old(Registrable(r.cnx)) then RegisterRefused else r
      ensures model == if closed then old(model)
                       else SetConn(old(model), ci, BackendConnections.OnResolved(old(model).conns[ci], outcome, now))
      ensures pool.index.Contents == IndexAfter(old(pool.index.Contents), old(model), DoResolved(ci, outcome, now))
    {
      hide *;
      outcome := r;
      Parts();
      IndexIs(ci, now);
      if closed {
        return;
      }
      outcome := RegisterNew(r, Owner(conns[ci].id, DIRECT_HOOKS));
      Resolve(ci, outcome, now);
    }

    /** The index after an answer, in terms of the fields. */
    lemma IndexIs(ci: nat, now: nat)
      requires Represents() && ci < |conns|
      ensures forall index, outcome ::
                IndexAfter(index, model, DoResolved(ci, outcome, now))
                == if outcome.Established? && !closed then index[outcome.cnx := Owner(conns[ci].id, DIRECT_HOOKS)] else index
    {
      ConnOf(ci);
    }

    method Resolve(ci: nat, outcome: Resolution, now: nat)
      requires Valid() && ci < |conns| && model.conns[ci].resolving > 0
      modifies this`model, conns[ci]
      ensures Valid() && model == SetConn(old(model), ci, BackendConnections.OnResolved(old(model).conns[ci], outcome, now))
    {
      hide InStep, Feeds, PendingMatch, SameQueues, Delay;
      ghost var t := model;
      ghost var d := BackendConnections.OnResolved(model.conns[ci], outcome, now);
      SetKeepsQueues(model, ci, d);
      ConnOf(ci);
      conns[ci].OnResolved(outcome, now);
      model := SetConn(model, ci, d);
      StillInStep(conns, pool.arena.model, t, model);
    }

    // ---- events of a QUIC connection ----

    /** The current handle is void: QUIC is about to free the connection behind it. */
    method DropCnx(ci: nat)
      requires Valid() && ci < |conns|
      modifies this`model, conns[ci]
      ensures Valid() && model == SetConn(old(model), ci, old(model).conns[ci].(cnx := None))
    {
      hide InStep, Feeds, PendingMatch, SameQueues, Delay;
      ghost var t := model;
      ghost var d := model.conns[ci].(cnx := None);
      SetKeepsQueues(model, ci, d);
      ConnOf(ci);
      conns[ci].DropHandle();
      model := SetConn(model, ci, d);
      StillInStep(conns, pool.arena.model, t, model);
    }

    /** The current generation is signalled and the connection backs off. */
    method Break(ci: nat, now: nat)
      requires Valid() && ci < |conns|
      modifies this`model, this`pendingFailures, conns[ci], pool`pendingFailures
      ensures Valid() && model == Fail(old(model), ci, now)
      ensures pool.pendingFailures - |pendingFailures| == old(pool.pendingFailures - |pendingFailures|)
    {
      ghost var t := model;
      AbortKeepsQueues(model, ci, now);
      hide *;
      Parts();
      FailConn(ci, now);
      StillInStep(conns, pool.arena.model, t, model);
      Parts();
    }

    /** The connection backs off without a notice. */
    method BackOff(ci: nat, now: nat)
      requires Valid() && ci < |conns|
      modifies this`model, conns[ci]
      ensures Valid() && model == SetConn(old(model), ci, BackendConnections.MarkFailed(old(model).conns[ci], now))
    {
      hide InStep, Feeds, PendingMatch, SameQueues, Delay;
      ghost var t := model;
      ghost var d := BackendConnections.MarkFailed(model.conns[ci], now);
      SetKeepsQueues(model, ci, d);
      ConnOf(ci);
      conns[ci].MarkFailed(now);
      model := SetConn(model, ci, d);
      StillInStep(conns, pool.arena.model, t, model);
    }

    /** Gives the QUIC connection up; events queued so far stay readable. */
    method AbortConnection(ci: nat, now: nat)
      requires Valid() && ci < |conns|
      modifies this`model, this`pendingFailures, conns[ci], pool`pendingFailures
      ensures Valid() && model == Abort(old(model), ci, now)
      ensures pool.pendingFailures - |pendingFailures| == old(pool.pendingFailures - |pendingFailures|)
    {
      AbortIs(model, ci, now);
      hide *;
      Parts();
      DropCnx(ci);
      Parts();
      Break(ci, now);
    }

    static lemma AbortIs(t: Transport, ci: nat, now: nat)
      requires ci < |t.conns|
      ensures var u := SetConn(t, ci, t.conns[ci].(cnx := None));
              && |u.conns| == |t.conns| && Abort(t, ci, now) == Fail(u, ci, now)
    {
    }

    static lemma AbortKeepsQueues(t: Transport, ci: nat, now: nat)
      requires ci < |t.conns|
      ensures SameQueues(t, Abort(t, ci, now)) && SameQueues(t, Fail(t, ci, now))
    {
    }

    /** The arena took or refused the events of a callback; the connection follows, or is given up. */
    method Deliver(ci: nat, c: BackendConn, from: Cnx, ghost events: seq<Event>, fits: bool, now: nat, ghost before: Arena<SlotList>)
      requires ValidAgainst(before) && pool.arena.Valid() && ci < |conns| && conns[ci] == c
      requires Joined(before, pool.arena.model, c.queue, fits, events)
      modifies this`model, this`pendingFailures, c, pool`pendingFailures
      ensures Valid() && pool.arena.Valid() && pool.arena.model == old(pool.arena.model)
      ensures model == OnEvents(old(model), ci, from, events, fits, now)
      ensures pool.pendingFailures - |pendingFailures| == old(pool.pendingFailures - |pendingFailures|)
    {
      hide *;
      EventsAre(model, ci, from, events, now, fits, before, pool.arena.model, c.queue);
      ghost var queues: set<SlotList> := pool.arena.model.layout.queues.Keys;
      assert forall q :: q in queues ==> (q as object) != (this as object) && (q as object) != (c as object) && (q as object) != (pool as object);
      PartsAgainst(before);
      if fits {
        Keep(ci, c, from, events, before);
      } else {
        Parts();
        GiveUp(ci, c, from, now);
      }
    }

    /** The two outcomes of a callback, for the history and for the arena. */
    static lemma EventsAre(t: Transport, ci: nat, from: Cnx, events: seq<Event>, now: nat, fits: bool,
                           a: Arena<SlotList>, b: Arena<SlotList>, l: SlotList)
      requires Joined(a, b, l, fits, events)
      ensures fits ==> Grew(a, b, l, events)
      ensures !fits ==> b == a
      ensures ci < |t.conns| ==>
                DirectModel.OnEvents(t, ci, from, events, fits, now)
                == if fits then SetConn(t, ci, BackendConnections.Queue(t.conns[ci], from, events))
                   else Blaming(Abort(t, ci, now), t.conns[ci], from)
    {
      hide Grew, Abort, Blaming, AppendAll, Appendable;
      if fits {
        JoinedGrew(a, b, l, events);
      }
    }

    /** The events joined the queue, and the connection's history follows. */
    ghost method Keep(ci: nat, c: BackendConn, from: Cnx, events: seq<Event>, before: Arena<SlotList>)
      requires ValidAgainst(before) && ci < |conns| == |model.conns| && conns[ci] == c
      requires Grew(before, pool.arena.model, c.queue, events)
      modifies this`model, c
      ensures Valid() && model == SetConn(old(model), ci, BackendConnections.Queue(old(model).conns[ci], from, events))
    {
      hide Grew, InStep, Feeds, PendingMatch, BackendConnections.Queue;
      GrownInStep(conns, before, pool.arena.model, model, ci, from, events);
      ghost var d := BackendConnections.Queue(model.conns[ci], from, events);
      ConnOf(ci);
      c.Record(from, events);
      model := SetConn(model, ci, d);
    }

    /** The callback's events did not fit. */
    method GiveUp(ci: nat, c: BackendConn, from: Cnx, now: nat)
      requires Valid() && ci < |conns| && conns[ci] == c && ci < |model.conns|
      modifies this`model, this`pendingFailures, c, pool`pendingFailures
      ensures Valid() && model == Blaming(Abort(old(model), ci, now), old(model).conns[ci], from)
      ensures pool.pendingFailures - |pendingFailures| == old(pool.pendingFailures - |pendingFailures|)
    {
      hide *;
      ghost var d := model.conns[ci];
      AbortConnection(ci, now);
      NoteBlame(d, from);
    }

    /** The history records whose callback ended the generation. */
    ghost method NoteBlame(c: Conn, from: Cnx)
      requires Valid()
      modifies this`model
      ensures Valid() && model == Blaming(old(model), c, from)
    {
      hide ConnsMatch, PendingMatch, Feeds, InStep;
      StillInStep(conns, pool.arena.model, model, Blaming(model, c, from));
      model := Blaming(model, c, from);
    }

    /** Queues what one callback brought, or gives the connection up: a byte stream is never delivered
        with a hole in it. */
    method TakeIn(ci: nat, c: BackendConn, from: Cnx, handle: Word, data: seq<Byte>, isFin: bool, kind: RecvKind, now: nat)
      returns (fits: bool)
      requires Valid() && pool.arena.Valid() && ci < |conns| && conns[ci] == c && (kind != Data ==> data == [] && isFin)
      modifies this`model, this`pendingFailures, c, pool`pendingFailures, pool.arena, pool.arena.slots,
               pool.arena.buffers, pool.arena.quota, pool.arena.quota.counts, c.queue
      ensures Valid() && pool.arena.Valid()
      ensures fits <==> old(pool.arena.Accepts(c.queue, ChunkCount(|data|)))
      ensures model == OnEvents(old(model), ci, from, Chunks(handle, data, isFin, kind), fits, now)
      ensures Joined(old(pool.arena.model), pool.arena.model, c.queue, fits, Chunks(handle, data, isFin, kind))
      ensures pool.pendingFailures - |pendingFailures| == old(pool.pendingFailures - |pendingFailures|)
    {
      ghost var before := pool.arena.model;
      ghost var events := Chunks(handle, data, isFin, kind);
      QueueOf(ci);
      hide *;
      fits := Offer(ci, c, handle, data, isFin, kind);
      Deliver(ci, c, from, events, fits, now, before);
    }

    /** The arena's side of it; the transport itself is not touched. */
    method Offer(ci: nat, c: BackendConn, handle: Word, data: seq<Byte>, isFin: bool, kind: RecvKind) returns (fits: bool)
      requires Valid() && pool.arena.Valid() && ci < |conns| && conns[ci] == c && c.queue in pool.arena.model.layout.queues
      requires kind != Data ==> data == [] && isFin
      modifies pool.arena, pool.arena.slots, pool.arena.buffers, pool.arena.quota, pool.arena.quota.counts, c.queue
      ensures ValidAgainst(old(pool.arena.model)) && pool.arena.Valid()
      ensures ci < |conns| && conns[ci] == c && model == old(model) && pendingFailures == old(pendingFailures)
      ensures pool.pendingFailures == old(pool.pendingFailures)
      ensures fits <==> old(pool.arena.Accepts(c.queue, ChunkCount(|data|)))
      ensures Joined(old(pool.arena.model), pool.arena.model, c.queue, fits, Chunks(handle, data, isFin, kind))
    {
      hide *;
      Parts();
      if kind == Data {
        fits := pool.arena.Enqueue(c.queue, handle, data, isFin);
      } else {
        NoDataIsOneChunk(handle, true, kind);
        fits := pool.arena.EnqueueControl(c.queue, handle, kind);
      }
    }

    /** Stream bytes from a QUIC connection; nothing is queued for a connection that is not ready. */
    method HookStreamData(ci: nat, from: Cnx, stream: StreamId, data: seq<Byte>, isFin: bool, now: nat) returns (ghost fits: bool)
      requires Valid() && ci < |conns| && pool.arena.Valid()
      modifies this`model, this`pendingFailures, conns[ci], pool`pendingFailures, pool.arena, pool.arena.slots,
               pool.arena.buffers, pool.arena.quota, pool.arena.quota.counts, conns[ci].queue
      ensures Valid() && pool.arena.Valid()
      ensures fits <==> old(pool.arena.Accepts(conns[ci].queue, ChunkCount(|data|)))
      ensures model == DirectModel.HookStreamData(old(model), ci, from, stream, data, isFin, fits, now)
      ensures Joined(old(pool.arena.model), pool.arena.model, old(conns[ci].queue), fits && old(Listening(ci)) && (data != [] || isFin),
                     Chunks(HandleOf(old(model).conns[ci], stream), data, isFin, Data))
      ensures pool.pendingFailures - |pendingFailures| == old(pool.pendingFailures - |pendingFailures|)
    {
      fits := pool.arena.Accepts(conns[ci].queue, ChunkCount(|data|));
      DataIs(model, ci, from, stream, data, isFin, now);
      ConnOf(ci);
      NothingJoined(pool.arena.model, conns[ci].queue, Chunks(HandleOf(model.conns[ci], stream), data, isFin, Data));
      hide *;
      if conns[ci].state != Ready {
        return;
      }
      if data == [] && !isFin {
        return;
      }
      var ok := TakeIn(ci, conns[ci], from, MakeHandle(conns[ci].id, conns[ci].generation, stream), data, isFin, Data, now);
    }

    ghost predicate Listening(ci: nat)
      requires ci < |conns|
      reads this`conns, conns
    {
      conns[ci].state == Ready
    }

    static lemma DataIs(t: Transport, ci: nat, from: Cnx, stream: StreamId, data: seq<Byte>, isFin: bool, now: nat)
      requires ci < |t.conns|
      ensures HandleOf(t.conns[ci], stream) == MakeHandle(t.conns[ci].id, t.conns[ci].generation, stream)
      ensures forall fits :: DirectModel.HookStreamData(t, ci, from, stream, data, isFin, fits, now) ==
                if t.conns[ci].state != Ready || (data == [] && !isFin) then t
                else OnEvents(t, ci, from, Chunks(HandleOf(t.conns[ci], stream), data, isFin, Data), fits, now)
    {
      hide Chunks, OnEvents, MakeHandle;
    }

    /** RESET_STREAM or STOP_SENDING: an event of its own, in order with the data before it. */
    method HookStreamControl(ci: nat, from: Cnx, stream: StreamId, kind: RecvKind, now: nat) returns (ghost fits: bool)
      requires Valid() && ci < |conns| && pool.arena.Valid() && kind != Data
      modifies this`model, this`pendingFailures, conns[ci], pool`pendingFailures, pool.arena, pool.arena.slots,
               pool.arena.buffers, pool.arena.quota, pool.arena.quota.counts, conns[ci].queue
      ensures Valid() && pool.arena.Valid()
      ensures fits <==> old(pool.arena.Accepts(conns[ci].queue, 1))
      ensures model == DirectModel.HookStreamControl(old(model), ci, from, stream, kind, fits, now)
      ensures Joined(old(pool.arena.model), pool.arena.model, old(conns[ci].queue), fits && old(Listening(ci)),
                     [Event(HandleOf(old(model).conns[ci], stream), [], true, kind)])
      ensures pool.pendingFailures - |pendingFailures| == old(pool.pendingFailures - |pendingFailures|)
    {
      fits := pool.arena.Accepts(conns[ci].queue, 1);
      ControlIs(model, ci, from, stream, kind, now);
      ConnOf(ci);
      NothingJoined(pool.arena.model, conns[ci].queue, [Event(HandleOf(model.conns[ci], stream), [], true, kind)]);
      NoDataIsOneChunk(HandleOf(model.conns[ci], stream), true, kind);
      hide *;
      if conns[ci].state != Ready {
        return;
      }
      var ok := TakeIn(ci, conns[ci], from, MakeHandle(conns[ci].id, conns[ci].generation, stream), [], true, kind, now);
    }

    static lemma ControlIs(t: Transport, ci: nat, from: Cnx, stream: StreamId, kind: RecvKind, now: nat)
      requires ci < |t.conns|
      ensures HandleOf(t.conns[ci], stream) == MakeHandle(t.conns[ci].id, t.conns[ci].generation, stream)
      ensures forall fits :: DirectModel.HookStreamControl(t, ci, from, stream, kind, fits, now) ==
                if t.conns[ci].state != Ready then t
                else OnEvents(t, ci, from, [Event(HandleOf(t.conns[ci], stream), [], true, kind)], fits, now)
    {
      hide OnEvents, MakeHandle;
    }

    /** A QUIC connection closed: its connection leaves ready or connecting, whatever it was in. */
    method HookClose(ci: nat, now: nat)
      requires Valid() && ci < |conns|
      modifies this`model, this`pendingFailures, conns[ci], pool`pendingFailures
      ensures Valid() && model == DirectModel.HookClose(old(model), ci, now)
      ensures pool.pendingFailures - |pendingFailures| == old(pool.pendingFailures - |pendingFailures|)
    {
      CloseIs(model, ci, now);
      hide *;
      Parts();
      ConnOf(ci);
      var wasReady := conns[ci].state == Ready;
      DropCnx(ci);
      Parts();
      if wasReady {
        Break(ci, now);
      } else {
        BackOff(ci, now);
      }
    }

    static lemma CloseIs(t: Transport, ci: nat, now: nat)
      requires ci < |t.conns|
      ensures var u := SetConn(t, ci, t.conns[ci].(cnx := None));
              && |u.conns| == |t.conns| && u.conns[ci] == t.conns[ci].(cnx := None)
              && DirectModel.HookClose(t, ci, now)
                 == (if t.conns[ci].state == Ready then Fail(u, ci, now)
                     else SetConn(u, ci, BackendConnections.MarkFailed(u.conns[ci], now)))
    {
      hide Fail;
    }

    /** The pool hands the close on first and drops the QUIC connection from its index afterwards. */
    method DispatchClose(ci: nat, c: BackendConn, from: Cnx, now: nat)
      requires Valid() && pool.Valid() && ci < |conns| && conns[ci] == c
      modifies this`model, this`pendingFailures, c, pool`pendingFailures, pool`live, pool.index, pool.index.entries
      ensures Valid() && pool.Valid()
      ensures model == DirectModel.DispatchClose(old(model), ci, from, now)
      ensures pool.index.Contents == IndexAfter(old(pool.index.Contents), old(model), DoClose(ci, from, now))
      ensures pool.pendingFailures - |pendingFailures| == old(pool.pendingFailures - |pendingFailures|)
    {
      hide *;
      CloseIndex(pool.index.Contents, model, ci, from, now);
      Parts();
      DispatchIs(model, ci, from, now);
      ghost var d := model.conns[ci];
      CloseConn(ci, c, now);
      Unregister(ci, c, from);
      Forget(ci, c, from);
      if d.state == Ready {
        NoteBlame(d, from);
      }
    }

    static lemma CloseIndex(index: map<Key, Owner>, t: Transport, ci: nat, from: Cnx, now: nat)
      ensures IndexAfter(index, t, DoClose(ci, from, now)) == index - {from}
    {
    }

    method CloseConn(ci: nat, c: BackendConn, now: nat)
      requires Valid() && pool.Valid() && ci < |conns| && conns[ci] == c
      modifies this`model, this`pendingFailures, c, pool`pendingFailures
      ensures Valid() && pool.Valid() && ci < |conns| && conns[ci] == c
      ensures model == DirectModel.HookClose(old(model), ci, now) && pool.index.Contents == old(pool.index.Contents)
      ensures pool.pendingFailures - |pendingFailures| == old(pool.pendingFailures - |pendingFailures|)
    {
      hide *;
      HookClose(ci, now);
    }

    method Unregister(ci: nat, c: BackendConn, from: Cnx)
      requires Valid() && pool.Valid() && ci < |conns| && conns[ci] == c
      modifies pool`live, pool.index, pool.index.entries
      ensures ci < |conns| && conns[ci] == c && model == old(model) && pendingFailures == old(pendingFailures)
      ensures pool.pendingFailures == old(pool.pendingFailures)
      ensures Valid() && pool.Valid() && pool.index.Contents == old(pool.index.Contents) - {from}
    {
      hide *;
      pool.Unregister(from);
    }

    static lemma DispatchIs(t: Transport, ci: nat, from: Cnx, now: nat)
      requires ci < |t.conns|
      ensures ci < |DirectModel.HookClose(t, ci, now).conns|
      ensures var u := Unindex(DirectModel.HookClose(t, ci, now), ci, from);
              DirectModel.DispatchClose(t, ci, from, now) == if t.conns[ci].state == Ready then Blaming(u, t.conns[ci], from) else u
    {
      hide Delay, KeyQueued, Blaming;
    }

    ghost method Forget(ci: nat, c: BackendConn, from: Cnx)
      requires Valid() && pool.Valid() && ci < |conns| && conns[ci] == c
      modifies this`model, c
      ensures Valid() && pool.Valid() && pool.index.Contents == old(pool.index.Contents) && model == Unindex(old(model), ci, from)
    {
      hide InStep, Feeds, PendingMatch, SameQueues, BackendPool.Valid;
      ghost var t := model;
      ghost var d := model.conns[ci].(live := model.conns[ci].live - {from});
      SetKeepsQueues(model, ci, d);
      ConnOf(ci);
      c.model := d;
      model := SetConn(model, ci, d);
      StillInStep(conns, pool.arena.model, t, model);
    }

    // ---- sending ----

    /** The connection a handle names. */
    method ConnById(id: ConnId) returns (r: Option<nat>)
      requires Valid()
      ensures r == DirectModel.ConnById(model.conns, id)
      ensures r.Some? ==> r.value < |conns|
    {
      assert model.conns[0..] == model.conns;
      for i := 0 to |conns|
        invariant DirectModel.ConnById(model.conns, id)
               == match DirectModel.ConnById(model.conns[i..], id) case None => None case Some(k) => Some(k + i)
      {
        ConnOf(i);
        assert model.conns[i..][1..] == model.conns[i + 1..];
        if conns[i].id == id {
          return Some(i);
        }
      }
      return None;
    }

    /** Writing on a stream the caller has a handle of; `w` is what QUIC answers. Whatever is written goes
        where a cancellation with this handle would go. */
    method SendExisting(h: Word, w: WriteOutcome, now: nat) returns (r: Result<Word, TransportError>, wrote: Option<(Cnx, StreamId)>)
      requires Valid()
      modifies this`model, this`pendingFailures, conns, pool`pendingFailures
      ensures Valid() && (model, r) == DirectModel.SendExisting(old(model), h, w, now)
      ensures (r.Ok? ==> wrote.Some?) && (wrote.Some? ==> wrote == InvalidateTarget(old(model), h))
      ensures pool.pendingFailures - |pendingFailures| == old(pool.pendingFailures - |pendingFailures|)
    {
      hide HandleConnId, HandleGeneration, HandleStreamId, MakeHandle, Fail, InStep, ConnsMatch, PendingMatch;
      Parts();
      if closed {
        return Err(TransportError.Closed), None;
      }
      if |conns| == 0 {
        return Err(RouteNotFound), None;
      }
      var found := ConnById(HandleConnId(h));
      if found.None? {
        return Err(TransportError.Closed), None;
      }
      var ci := found.value;
      ConnOf(ci);
      if conns[ci].state != Ready {
        return Err(ConnectionFailed), None;
      }
      WrittenWhereCancelled(model, ci, h, w);
      r, wrote := WriteOn(ci, h, w);
      if r == Err(ConnectionFailed) {
        Break(ci, now);
      }
    }

    /** On a ready connection the write goes to the target of a cancellation. */
    static lemma WrittenWhereCancelled(t: Transport, ci: nat, h: Word, w: WriteOutcome)
      requires ci < |t.conns| && DirectModel.ConnById(t.conns, HandleConnId(h)) == Some(ci) && t.conns[ci].state == Ready
      ensures var wrote := WrittenTo(t.conns[ci], Some(h), w);
              && (wrote.Some? ==> wrote == InvalidateTarget(t, h))
              && (BackendConnections.SendOn(t.conns[ci], Some(h), w).1.Ok? ==> wrote.Some?)
    {
      hide MakeHandle, HandleConnId, HandleGeneration, HandleStreamId;
    }

    /** A write on an existing stream changes no connection field. */
    method WriteOn(ci: nat, h: Word, w: WriteOutcome) returns (r: Result<Word, TransportError>, wrote: Option<(Cnx, StreamId)>)
      requires Valid() && ci < |conns|
      modifies conns[ci]
      ensures Valid() && r == BackendConnections.SendOn(old(model).conns[ci], Some(h), w).1
      ensures wrote == WrittenTo(old(model).conns[ci], Some(h), w)
    {
      assert BackendConnections.SendOn(model.conns[ci], Some(h), w).0 == model.conns[ci];
      hide *;
      Parts();
      ConnOf(ci);
      r, wrote := conns[ci].SendOn(Some(h), w);
      Parts();
    }

    /** One attempt to open a stream: the cursor moves past the connection, or the connection fails. */
    method OpenOn(ci: nat, c: BackendConn, w: WriteOutcome, now: nat)
      returns (r: Result<Word, TransportError>, wrote: Option<(Cnx, StreamId)>)
      requires Valid() && ci < |conns| && conns[ci] == c && ci < |model.conns| && model.conns[ci].nextStream < STREAM_IDS
      modifies this`model, this`nextConn, this`pendingFailures, c, pool`pendingFailures
      ensures Valid() && conns == old(conns) && closed == old(closed)
      ensures r == BackendConnections.SendOn(old(model).conns[ci], None, w).1
      ensures model == match r case Ok(h) => OpenedOn(old(model), ci, w, h) case Err(_) => FailedOn(old(model), ci, w, now)
      ensures r.Ok? ==> OpenedVia(model, wrote)
      ensures pool.pendingFailures - |pendingFailures| == old(pool.pendingFailures - |pendingFailures|)
    {
      hide *;
      ghost var t := model;
      OpenIs(t, ci, w, now);
      r, wrote := WriteNew(ci, c, w);
      Parts();
      match r {
        case Ok(h) =>
          MoveCursor(t, ci, w, h);
          OpenedIsVia(t, ci, w, h);
        case Err(_) => Break(ci, now);
      }
    }

    static lemma OpenIs(t: Transport, ci: nat, w: WriteOutcome, now: nat)
      requires ci < |t.conns| && t.conns[ci].nextStream < STREAM_IDS
      ensures var u := SetConn(t, ci, BackendConnections.SendOn(t.conns[ci], None, w).0);
              |u.conns| == |t.conns| && FailedOn(t, ci, w, now) == Fail(u, ci, now)
    {
      hide Fail, MakeHandle;
    }

    /** The newest stream is the one QUIC was given the write for, on the connection on record for it. */
    static ghost predicate OpenedVia(t: Transport, wrote: Option<(Cnx, StreamId)>) {
      t.streams != [] && var o := t.streams[|t.streams| - 1]; o.via.Some? && wrote == Some((o.via.value, o.stream))
    }

    static lemma OpenedIsVia(t: Transport, ci: nat, w: WriteOutcome, h: Word)
      requires ci < |t.conns| && t.conns[ci].nextStream < STREAM_IDS
      requires BackendConnections.SendOn(t.conns[ci], None, w).1 == Ok(h)
      ensures OpenedVia(OpenedOn(t, ci, w, h), WrittenTo(t.conns[ci], None, w))
    {
      hide MakeHandle;
    }

    /** The write itself. */
    method WriteNew(ci: nat, c: BackendConn, w: WriteOutcome)
      returns (r: Result<Word, TransportError>, wrote: Option<(Cnx, StreamId)>)
      requires Valid() && ci < |conns| && conns[ci] == c && model.conns[ci].nextStream < STREAM_IDS
      modifies this`model, c
      ensures Valid() && conns == old(conns) && closed == old(closed)
      ensures r == BackendConnections.SendOn(old(model).conns[ci], None, w).1 && wrote == WrittenTo(old(model).conns[ci], None, w)
      ensures model == SetConn(old(model), ci, BackendConnections.SendOn(old(model).conns[ci], None, w).0)
    {
      hide InStep, Feeds, PendingMatch, BackendConnections.SendOn, MakeHandle, SameQueues;
      ghost var t := model;
      ghost var d := BackendConnections.SendOn(model.conns[ci], None, w).0;
      SendKeepsQueues(model, ci, w);
      ConnOf(ci);
      r, wrote := c.SendOn(None, w);
      model := SetConn(model, ci, d);
      StillInStep(conns, pool.arena.model, t, model);
    }

    static lemma SendKeepsQueues(t: Transport, ci: nat, w: WriteOutcome)
      requires ci < |t.conns| && t.conns[ci].nextStream < STREAM_IDS
      ensures SameQueues(t, SetConn(t, ci, BackendConnections.SendOn(t.conns[ci], None, w).0))
    {
      hide MakeHandle;
    }

    method MoveCursor(ghost t: Transport, ci: nat, ghost w: WriteOutcome, ghost h: Word)
      requires Valid() && ci < |conns| == |t.conns| && t.conns[ci].nextStream < STREAM_IDS
      requires model == SetConn(t, ci, BackendConnections.SendOn(t.conns[ci], None, w).0)
      modifies this`model, this`nextConn
      ensures Valid() && model == OpenedOn(t, ci, w, h)
    {
      hide ConnsMatch, PendingMatch, InStep, MakeHandle, BackendConnections.SendOn;
      ghost var u := model;
      nextConn := (ci + 1) % |conns|;
      model := OpenedOn(t, ci, w, h);
      assert SameQueues(u, model);
      StillInStep(conns, pool.arena.model, u, model);
    }

    /** Opens a stream on the first connection that takes it, from the cursor on; if none does, every
        connection that may be retried is woken. */
    method SendNew(w: seq<WriteOutcome>, started: seq<bool>, now: nat)
      returns (r: Result<Word, TransportError>, wrote: Option<(Cnx, StreamId)>)
      requires Valid() && CanOpen(model)
      modifies this`model, this`nextConn, this`pendingFailures, conns, pool`pendingFailures
      ensures Valid() && (model, r) == DirectModel.SendNew(old(model), w, started, now)
      ensures r.Ok? ==> OpenedVia(model, wrote)
      ensures pool.pendingFailures - |pendingFailures| == old(pool.pendingFailures - |pendingFailures|)
    {
      ghost var t := model;
      SendNewIs(t, w, started, now);
      Parts();
      assert nextConn == model.next && closed == model.closed && |conns| == |model.conns|;
      hide *;
      if closed {
        return Err(TransportError.Closed), None;
      }
      if |conns| == 0 {
        return Err(RouteNotFound), None;
      }
      r, wrote := TryAll(w, now);
      if r.Err? {
        WakeAll(started, now);
      }
    }

    /** The connections in turn, from the cursor on, until one takes the stream. */
    method TryAll(w: seq<WriteOutcome>, now: nat) returns (r: Result<Word, TransportError>, wrote: Option<(Cnx, StreamId)>)
      requires Valid() && CanOpen(model) && |conns| > 0 && |model.conns| == |conns| && nextConn == model.next
      modifies this`model, this`nextConn, this`pendingFailures, conns, pool`pendingFailures
      ensures Valid() && conns == old(conns) && (model, r) == TryFrom(old(model), old(model).next, 0, w, now, ConnectionFailed)
      ensures r.Ok? ==> OpenedVia(model, wrote)
      ensures pool.pendingFailures - |pendingFailures| == old(pool.pendingFailures - |pendingFailures|)
    {
      hide *;
      ghost var t := model;
      var cursor := nextConn;
      r, wrote := Err(ConnectionFailed), None;
      var offset := 0;
      while offset < |conns|
        invariant Valid() && conns == old(conns) && |model.conns| == |conns| && CanOpen(model)
        invariant offset <= |conns| && r.Err?
        invariant TryFrom(t, cursor, 0, w, now, ConnectionFailed) == TryFrom(model, cursor, offset, w, now, r.error)
        invariant pool.pendingFailures - |pendingFailures| == old(pool.pendingFailures - |pendingFailures|)
      {
        Parts();
        TryIs(model, cursor, offset, w, now, r.error);
        var ci := Turn(|conns|, cursor, offset);
        ConnOf(ci);
        var c := conns[ci];
        if c.state == Ready {
          r, wrote := OpenOn(ci, c, OutcomeAt(w, ci), now);
          if r.Ok? {
            return;
          }
        }
        offset := offset + 1;
      }
      TryIs(model, cursor, offset, w, now, r.error);
    }

    static lemma SendNewIs(t: Transport, w: seq<WriteOutcome>, started: seq<bool>, now: nat)
      requires CanOpen(t)
      ensures t.closed ==> DirectModel.SendNew(t, w, started, now) == (t, Err(TransportError.Closed))
      ensures !t.closed && |t.conns| == 0 ==> DirectModel.SendNew(t, w, started, now) == (t, Err(RouteNotFound))
      ensures !t.closed && |t.conns| > 0 ==>
                var (u, r) := TryFrom(t, t.next, 0, w, now, ConnectionFailed);
                DirectModel.SendNew(t, w, started, now) == if r.Ok? then (u, r) else (EnsureAll(u, now, started), r)
    {
      hide TryFrom, EnsureAll;
    }

    static lemma TryIs(t: Transport, cursor: nat, offset: nat, w: seq<WriteOutcome>, now: nat, last: TransportError)
      requires t.conns != [] && CanOpen(t)
      ensures offset >= |t.conns| ==> TryFrom(t, cursor, offset, w, now, last) == (t, Err(last))
      ensures offset < |t.conns| ==>
                var ci := Turn(|t.conns|, cursor, offset);
                if t.conns[ci].state != Ready then TryFrom(t, cursor, offset, w, now, last) == TryFrom(t, cursor, offset + 1, w, now, last)
                else
                  && t.conns[ci].nextStream < STREAM_IDS
                  && match BackendConnections.SendOn(t.conns[ci], None, OutcomeAt(w, ci)).1
                     case Ok(h) => TryFrom(t, cursor, offset, w, now, last) == (OpenedOn(t, ci, OutcomeAt(w, ci), h), Ok(h))
                     case Err(e) =>
                       var v := FailedOn(t, ci, OutcomeAt(w, ci), now);
                       && |v.conns| == |t.conns| && CanOpen(v)
                       && TryFrom(t, cursor, offset, w, now, last) == TryFrom(v, cursor, offset + 1, w, now, e)
    {
      hide KeyQueued, MakeHandle, Delay;
    }

    method WakeAll(started: seq<bool>, now: nat)
      requires Valid()
      modifies this`model, conns
      ensures Valid() && model == EnsureAll(old(model), now, started)
    {
      ghost var t := model;
      Parts();
      hide ConnsMatch, PendingMatch, InStep, BackendConnections.EnsureConnecting;
      for i := 0 to |conns|
        invariant Valid() && |model.conns| == |conns| == |t.conns| && conns == old(conns)
        invariant model == t.(conns := model.conns)
        invariant forall j :: 0 <= j < |t.conns| ==> model.conns[j] == if j < i then EnsureAt(t, j, now, started) else t.conns[j]
      {
        EnsureConnecting(i, now, i < |started| && started[i]);
      }
      assert model.conns == EnsureAll(t, now, started).conns;
    }

    // ---- the Worker receives ----

    /** The pool's side of taking the oldest chunk of one connection. */
    method PopQueue(ci: nat, c: BackendConn) returns (r: Option<ReadySlot>)
      requires Valid() && pool.arena.Valid() && ci < |conns| && conns[ci] == c && c.queue in pool.arena.model.layout.queues
      modifies pool.arena`model, pool.arena.slots, c.queue
      ensures ValidAgainst(old(pool.arena.model)) && pool.arena.Valid()
      ensures conns == old(conns) && model == old(model) && pendingFailures == old(pendingFailures)
      ensures closed == old(closed) && pool.pendingFailures == old(pool.pendingFailures)
      ensures HandedOut(old(pool.arena.model), pool.arena.model, c.queue, r)
    {
      Parts();
      hide *;
      r := pool.Pop(c.queue);
    }

    /** The oldest event of one connection, if it has one. */
    method PopFrom(ci: nat, c: BackendConn) returns (r: Option<TransportRecv>)
      requires Valid() && pool.arena.Valid() && ci < |conns| && conns[ci] == c
      modifies this`model, c, pool.arena`model, pool.arena.slots, c.queue
      ensures Valid() && pool.arena.Valid() && conns == old(conns) && closed == old(closed)
      ensures pendingFailures == old(pendingFailures) && pool.pendingFailures == old(pool.pendingFailures)
      ensures Took(old(model), model, ci, r) && Lent(old(pool.arena.model), pool.arena.model, r)
    {
      ghost var t := model;
      ghost var before := pool.arena.model;
      ArenaInv();
      QueueOf(ci);
      hide *;
      Parts();
      var ready := PopQueue(ci, c);
      if ready.None? {
        PoppedNothing(conns, before, pool.arena.model, t, ci);
        Parts();
        return None;
      }
      var recv := TransportRecv(ready.value.event, ready.value.index, IsPeerInitiated(ready.value.event.streamId));
      PoppedSome(conns, before, pool.arena.model, t, ci, ready.value, recv);
      Advance(ci, c, before);
      return Some(recv);
    }

    /** What was taken is the next event of connection `ci`, marked with who opened its stream. */
    static ghost predicate Took(t: Transport, u: Transport, ci: nat, r: Option<TransportRecv>) {
      && ci < |t.conns|
      && match r
         case None => u == t && t.conns[ci].taken >= |t.conns[ci].accepted|
         case Some(recv) =>
           && t.conns[ci].taken < |t.conns[ci].accepted| && u == TakeFrom(t, ci)
           && recv.event == t.conns[ci].accepted[t.conns[ci].taken].event
           && recv.peerInitiated == IsPeerInitiated(recv.event.streamId)
    }

    /** The slot handed out is on loan, and what was on loan before still is. */
    static ghost predicate Lent(a: Arena<SlotList>, b: Arena<SlotList>, r: Option<TransportRecv>) {
      match r
      case None => b == a
      case Some(recv) => Loaned(b, recv.token) && LoansKept(a, b)
    }

    lemma ArenaInv()
      requires pool.arena.Valid()
      ensures ArenaModel.Inv(pool.arena.model)
    {
    }

    /** The connection's history follows one pop. */
    ghost method Advance(ci: nat, c: BackendConn, before: Arena<SlotList>)
      requires ValidAgainst(before) && pool.arena.Valid()
      requires ci < |conns| && conns[ci] == c && ci < |model.conns| && model.conns[ci].taken < |model.conns[ci].accepted|
      requires InStep(conns, pool.arena.model, TakeFrom(model, ci))
      modifies this`model, c
      ensures Valid() && pool.arena.Valid() && pool.arena.model == old(pool.arena.model) && model == TakeFrom(old(model), ci)
    {
      hide InStep, ArenaModel.Inv;
      ConnOf(ci);
      ghost var next := TakeFrom(model, ci);
      c.model := next.conns[ci];
      model := next;
    }

    static lemma PoppedNothing(conns: seq<BackendConn>, a: Arena<SlotList>, b: Arena<SlotList>, t: Transport, ci: nat)
      requires ArenaModel.Inv(a) && InStep(conns, a, t) && ci < |conns| && HandedOut(a, b, conns[ci].queue, None)
      ensures b == a && Took(t, t, ci, None) && Lent(a, b, None)
    {
      assert Feeds(a, conns[ci].queue, t.conns[ci]);
      DrainedMeansEmptyQueue(a, conns[ci].queue, t.conns[ci]);
      hide ArenaModel.Inv;
    }

    static lemma PoppedSome(conns: seq<BackendConn>, a: Arena<SlotList>, b: Arena<SlotList>, t: Transport, ci: nat,
                            ready: ReadySlot, recv: TransportRecv)
      requires ArenaModel.Inv(a) && InStep(conns, a, t) && ci < |conns| && HandedOut(a, b, conns[ci].queue, Some(ready))
      requires recv == TransportRecv(ready.event, ready.index, IsPeerInitiated(ready.event.streamId))
      ensures ci < |t.conns| && t.conns[ci].taken < |t.conns[ci].accepted|
      ensures Took(t, TakeFrom(t, ci), ci, Some(recv)) && Lent(a, b, Some(recv)) && InStep(conns, b, TakeFrom(t, ci))
    {
      var l := conns[ci].queue;
      assert Feeds(a, l, t.conns[ci]);
      HandedOutHistory(a, b, l, ready);
      HeadIsNext(a, l, t.conns[ci]);
      hide ArenaModel.Inv, LoansKept, EventAt, EventsIn, HandedOut, IsPeerInitiated, Feeds, InStep, Loaned;
      TakenInStep(conns, a, b, t, ci, ready.event);
    }

    /** One event moved to what was popped. */
    static lemma TakenInStep(conns: seq<BackendConn>, a: Arena<SlotList>, b: Arena<SlotList>, t: Transport, ci: nat, e: Event)
      requires InStep(conns, a, t) && ci < |conns| && t.conns[ci].taken < |t.conns[ci].accepted|
      requires conns[ci].queue in a.popped && b.accepted == a.accepted && b.layout.queues.Keys == a.layout.queues.Keys
      requires b.popped == a.popped[conns[ci].queue := a.popped[conns[ci].queue] + [e]]
      ensures InStep(conns, b, TakeFrom(t, ci))
    {
      hide EventsIn;
      forall i | 0 <= i < |conns| ensures Feeds(b, conns[i].queue, TakeFrom(t, ci).conns[i]) {
        assert Feeds(a, conns[i].queue, t.conns[i]);
      }
    }

    /** What receive answers for what the model says it tells. */
    static ghost predicate Answers(told: Result<Option<Received>, ReceiveError>, r: Result<Option<TransportRecv>, ReceiveError>) {
      match told
      case Err(e) => r == Err(e)
      case Ok(None) => r == Ok(None)
      case Ok(Some(received)) =>
        && r.Ok? && r.value.Some? && r.value.value.event == received.event
        && r.value.value.peerInitiated == IsPeerInitiated(received.event.streamId)
    }

    /** The next thing the Worker is told: an event of the first connection that has one, a failure
        only when none has, and nothing when there is neither. The slot stays on loan. */
    method Receive() returns (r: Result<Option<TransportRecv>, ReceiveError>)
      requires Valid() && pool.arena.Valid()
      modifies this`model, this`pendingFailures, this`lastFailureConn, conns, pool`pendingFailures,
               pool.arena`model, pool.arena.slots, QueueSet()
      ensures Valid() && pool.arena.Valid()
      ensures model == DirectModel.Receive(old(model)).0 && Answers(DirectModel.Receive(old(model)).1, r)
      ensures Lent(old(pool.arena.model), pool.arena.model, if r.Ok? then r.value else None)
      ensures pool.pendingFailures - |pendingFailures| == old(pool.pendingFailures - |pendingFailures|)
    {
      ghost var t := model;
      ClosedIs();
      NothingLent(pool.arena.model);
      hide *;
      if closed {
        return Err(TransportClosed);
      }
      var recv := FindEvent();
      if recv.Some? {
        return Ok(recv);
      }
      r := TellFailure();
    }

    ghost function QueueSet(): set<SlotList>
      reads this`conns
    {
      set c | c in conns :: c.queue
    }

    /** Polls the connections in order until one has an event. */
    method FindEvent() returns (recv: Option<TransportRecv>)
      requires Valid() && pool.arena.Valid() && !model.closed
      modifies this`model, conns, pool.arena`model, pool.arena.slots, QueueSet()
      ensures Valid() && pool.arena.Valid() && Lent(old(pool.arena.model), pool.arena.model, recv)
      ensures pendingFailures == old(pendingFailures) && pool.pendingFailures == old(pool.pendingFailures)
      ensures if recv.None? then model == old(model) && FirstQueued(model.conns).None?
              else model == DirectModel.Receive(old(model)).0 && Answers(DirectModel.Receive(old(model)).1, Ok(recv))
    {
      ghost var t := model;
      ghost var before := pool.arena.model;
      NothingLent(before);
      hide *;
      var i := 0;
      while i < |conns|
        invariant Polled(i, t, before, old(conns), old(pendingFailures), old(pool.pendingFailures))
      {
        recv := Poll(i, t, before, old(conns), old(pendingFailures), old(pool.pendingFailures));
        if recv.Some? {
          return;
        }
        i := i + 1;
      }
      Parts();
      FoundNone(t, i);
      return None;
    }

    /** The first `i` connections had nothing, and nothing has moved since `t` and `before`. */
    ghost predicate Polled(i: nat, t: Transport, before: Arena<SlotList>, conns0: seq<BackendConn>, pending0: seq<ConnKey>, count0: nat)
      reads this, conns, pool`pendingFailures, pool.arena, pool.arena.slots, pool.arena.buffers, pool.arena.quota,
            pool.arena.quota.counts, pool.arena.model.layout.queues.Keys
    {
      && Valid() && pool.arena.Valid() && conns == conns0 && i <= |conns| && model == t && pool.arena.model == before
      && pendingFailures == pending0 && pool.pendingFailures == count0 && AllEmpty(t, i)
    }

    method Poll(i: nat, ghost t: Transport, ghost before: Arena<SlotList>, ghost conns0: seq<BackendConn>,
                ghost pending0: seq<ConnKey>, ghost count0: nat) returns (recv: Option<TransportRecv>)
      requires Polled(i, t, before, conns0, pending0, count0) && i < |conns| && !t.closed
      modifies this`model, conns, pool.arena`model, pool.arena.slots, QueueSet()
      ensures Valid() && pool.arena.Valid() && conns == conns0 && pendingFailures == pending0 && pool.pendingFailures == count0
      ensures Lent(before, pool.arena.model, recv)
      ensures if recv.None? then Polled(i + 1, t, before, conns0, pending0, count0)
              else model == DirectModel.Receive(t).0 && Answers(DirectModel.Receive(t).1, Ok(recv))
    {
      var c := conns[i];
      assert c in conns && c.queue in QueueSet();
      PolledMeans(i, t, before, conns0, pending0, count0);
      hide *;
      recv := PopFrom(i, c);
      if recv.Some? {
        FoundEvent(t, model, i, recv);
      } else {
        NoneTaken(t, model, i, before, pool.arena.model);
        PolledNext(i, t, before, conns0, pending0, count0);
      }
    }

    static ghost predicate AllEmpty(t: Transport, n: nat) {
      forall k :: 0 <= k < n ==> Took(t, t, k, None)
    }

    lemma PolledMeans(i: nat, t: Transport, before: Arena<SlotList>, conns0: seq<BackendConn>, pending0: seq<ConnKey>, count0: nat)
      requires Polled(i, t, before, conns0, pending0, count0)
      ensures Valid() && pool.arena.Valid() && conns == conns0 && model == t && pool.arena.model == before
      ensures pendingFailures == pending0 && pool.pendingFailures == count0 && AllEmpty(t, i)
    {
    }

    lemma PolledNext(i: nat, t: Transport, before: Arena<SlotList>, conns0: seq<BackendConn>, pending0: seq<ConnKey>, count0: nat)
      requires Valid() && pool.arena.Valid() && conns == conns0 && i < |conns| && model == t && pool.arena.model == before
      requires pendingFailures == pending0 && pool.pendingFailures == count0 && AllEmpty(t, i) && Took(t, t, i, None)
      ensures Polled(i + 1, t, before, conns0, pending0, count0)
    {
    }

    lemma ClosedIs()
      requires Valid()
      ensures closed == model.closed
      ensures closed ==> DirectModel.Receive(model) == (model, Err(TransportClosed)) && Answers(Err(TransportClosed), Err(TransportClosed))
    {
    }

    static lemma NothingLent(a: Arena<SlotList>)
      ensures Lent(a, a, None)
    {
    }

    static lemma NoneTaken(t: Transport, u: Transport, i: nat, a: Arena<SlotList>, b: Arena<SlotList>)
      requires Took(t, u, i, None) && Lent(a, b, None)
      ensures u == t && b == a
    {
    }

    /** No connection has an event: the newest queued failure, if any. */
    method TellFailure() returns (r: Result<Option<TransportRecv>, ReceiveError>)
      requires Valid() && pool.arena.Valid() && !model.closed && FirstQueued(model.conns).None?
      modifies this`model, this`pendingFailures, this`lastFailureConn, pool`pendingFailures
      ensures Valid() && pool.arena.Valid() && pool.arena.model == old(pool.arena.model)
      ensures model == DirectModel.Receive(old(model)).0 && Answers(DirectModel.Receive(old(model)).1, r)
      ensures r == Err(ReceiveFailed) || r == Ok(None)
      ensures pool.pendingFailures - |pendingFailures| == old(pool.pendingFailures - |pendingFailures|)
    {
      hide ConnsMatch, InStep, FirstQueued, ArenaModel.Inv;
      if |pendingFailures| == 0 {
        return Ok(None);
      }
      ghost var t := model;
      var last := |pendingFailures| - 1;
      lastFailureConn := pendingFailures[last];
      pendingFailures := pendingFailures[..last];
      pool.AcknowledgeFailure();
      model := TakeFailure(t);
      assert SameQueues(t, model);
      StillInStep(conns, pool.arena.model, t, model);
      return Err(ReceiveFailed);
    }

    static lemma FoundEvent(t: Transport, u: Transport, i: nat, r: Option<TransportRecv>)
      requires !t.closed && r.Some? && Took(t, u, i, r) && AllEmpty(t, i)
      ensures u == DirectModel.Receive(t).0 && Answers(DirectModel.Receive(t).1, Ok(r))
    {
      FirstQueuedFinds(t.conns);
      forall k | 0 <= k < i ensures t.conns[k].taken >= |t.conns[k].accepted| {
        assert Took(t, t, k, None);
      }
    }

    static lemma FoundNone(t: Transport, n: nat)
      requires n == |t.conns| && AllEmpty(t, n)
      ensures FirstQueued(t.conns).None?
    {
      FirstQueuedFinds(t.conns);
      forall k | 0 <= k < n ensures t.conns[k].taken >= |t.conns[k].accepted| {
        assert Took(t, t, k, None);
      }
    }

    /** Gives a slot back; whether its connection or transport is still open does not matter. */
    method ReleaseRecv(recv: TransportRecv)
      requires Valid() && pool.arena.Valid() && Loaned(pool.arena.model, recv.token)
      modifies pool.arena, pool.arena.slots, pool.arena.quota, pool.arena.quota.counts
      ensures Valid() && pool.arena.Valid() && pool.arena.model == ArenaModel.Release(old(pool.arena.model), recv.token)
    {
      ReleasedInStep(conns, pool.arena.model, model, recv.token);
      hide *;
      GiveBack(recv.token);
      Parts();
    }

    method GiveBack(slot: nat)
      requires Valid() && pool.arena.Valid() && Loaned(pool.arena.model, slot)
      modifies pool.arena, pool.arena.slots, pool.arena.quota, pool.arena.quota.counts
      ensures pool.arena.Valid() && pool.arena.model == ArenaModel.Release(old(pool.arena.model), slot)
      ensures Represents() && conns == old(conns) && model == old(model) && |pendingFailures| <= pool.pendingFailures
    {
      Parts();
      hide *;
      pool.arena.Release(slot);
    }

    static lemma ReleasedInStep(conns: seq<BackendConn>, a: Arena<SlotList>, t: Transport, slot: nat)
      requires InStep(conns, a, t) && Loaned(a, slot)
      ensures InStep(conns, ArenaModel.Release(a, slot), t)
    {
      var b := ArenaModel.Release(a, slot);
      hide EventsIn;
      forall i | 0 <= i < |conns| ensures Feeds(b, conns[i].queue, t.conns[i]) {
        assert Feeds(a, conns[i].queue, t.conns[i]);
      }
    }

    // ---- connections come and go ----

    ghost predicate FirstAt(endpoint: Endpoint, r: Option<nat>)
      reads this`conns
    {
      match r
      case Some(i) => i < |conns| && conns[i].endpoint == endpoint && forall k :: 0 <= k < i ==> conns[k].endpoint != endpoint
      case None => forall k :: 0 <= k < |conns| ==> conns[k].endpoint != endpoint
    }

    method FindEndpoint(endpoint: Endpoint) returns (r: Option<nat>)
      ensures FirstAt(endpoint, r)
    {
      for i := 0 to |conns|
        invariant forall k :: 0 <= k < i ==> conns[k].endpoint != endpoint
      {
        if conns[i].endpoint == endpoint {
          return Some(i);
        }
      }
      return None;
    }

    /** The connection of an endpoint: one per endpoint, created on first use with a connection id
        nobody on the Worker had before. */
    method GetOrCreateConn(endpoint: Endpoint) returns (r: Result<nat, TransportError>)
      requires Valid() && pool.Valid() && pool.arena.Valid()
      modifies this`conns, this`model, pool`nextConnId, pool.arena
      ensures Valid() && pool.Valid() && pool.arena.Valid()
      ensures r.Ok? ==> r.value < |conns| && conns[r.value].endpoint == endpoint
      ensures r.Err? ==> r == Err(ConnectionFailed) && old(pool.nextConnId) == MAX_CONN_ID
      ensures (r.Err? || r.value < |old(conns)|) ==>
                conns == old(conns) && model == old(model) && pool.arena.model == old(pool.arena.model) && pool.nextConnId == old(pool.nextConnId)
      ensures r.Ok? && r.value >= |old(conns)| ==>
                && old(FirstAt(endpoint, None)) && Created(old(conns), old(model), old(pool.arena.model), old(pool.nextConnId))
    {
      var found := FindEndpoint(endpoint);
      if found.Some? {
        return Ok(found.value);
      }
      hide *;
      r := CreateConn(endpoint);
    }

    /** One more connection, with the next connection id and its own empty queue. */
    ghost predicate Created(conns0: seq<BackendConn>, t: Transport, a: Arena<SlotList>, id: nat)
      reads this`conns, this`model, pool`nextConnId, pool.arena`model
    {
      && id < MAX_CONN_ID && pool.nextConnId == id + 1
      && |conns| == |conns0| + 1 && conns == conns0 + [conns[|conns0|]] && conns[|conns0|].id == id
      && conns[|conns0|].queue !in a.layout.queues && conns[|conns0|].queue.realm == realm
      && model == AddConn(t, id) && pool.arena.model == Open(a, conns[|conns0|].queue, realm)
    }

    lemma IsCreated(conns0: seq<BackendConn>, t: Transport, a: Arena<SlotList>, id: nat)
      requires id < MAX_CONN_ID && pool.nextConnId == id + 1 && |conns| == |conns0| + 1 && conns == conns0 + [conns[|conns0|]]
      requires var c := conns[|conns0|];
               c.id == id && c.queue !in a.layout.queues && c.queue.realm == realm && pool.arena.model == Open(a, c.queue, realm)
      requires model == AddConn(t, id)
      ensures Created(conns0, t, a, id)
    {
    }

    method CreateConn(endpoint: Endpoint) returns (r: Result<nat, TransportError>)
      requires Valid() && pool.Valid() && pool.arena.Valid()
      modifies this`conns, this`model, pool`nextConnId, pool.arena
      ensures Valid() && pool.Valid() && pool.arena.Valid()
      ensures r == if old(pool.nextConnId) == MAX_CONN_ID then Err(ConnectionFailed) else Ok(|old(conns)|)
      ensures r.Err? ==> conns == old(conns) && model == old(model)
      ensures r.Err? ==> pool.arena.model == old(pool.arena.model) && pool.nextConnId == old(pool.nextConnId)
      ensures r.Ok? ==> Created(old(conns), old(model), old(pool.arena.model), old(pool.nextConnId)) && conns[r.value].endpoint == endpoint
    {
      hide *;
      Parts();
      IdRange();
      var id := NextId();
      if id.Err? {
        return Err(ConnectionFailed);
      }
      ghost var (before, conns0, t) := (pool.arena.model, conns, model);
      var position: nat := |conns|;
      var queue := NewQueue();
      AddNew(id.value, endpoint, queue, before);
      IsCreated(conns0, t, before, id.value);
      r := Ok(position);
    }

    /** The connection object itself, with the queue opened for it. */
    method AddNew(id: ConnId, endpoint: Endpoint, queue: SlotList, ghost a: Arena<SlotList>)
      requires ValidAgainst(a) && pool.Valid() && pool.arena.Valid()
      requires queue !in a.layout.queues && pool.arena.model == Open(a, queue, realm)
      modifies this`conns, this`model
      ensures Valid() && pool.Valid() && pool.arena.Valid() && pool.arena.model == old(pool.arena.model)
      ensures pool.nextConnId == old(pool.nextConnId) && model == AddConn(old(model), id)
      ensures |conns| == |old(conns)| + 1 && conns == old(conns) + [conns[|old(conns)|]]
      ensures var c := conns[|old(conns)|]; c.id == id && c.endpoint == endpoint && c.queue == queue
    {
      hide *;
      var c := NewConn(id, endpoint, queue, a);
      Attach(c, a);
    }

    method NewConn(id: ConnId, endpoint: Endpoint, queue: SlotList, ghost a: Arena<SlotList>) returns (c: BackendConn)
      requires ValidAgainst(a) && pool.Valid() && pool.arena.Valid()
      ensures ValidAgainst(a) && pool.Valid() && pool.arena.Valid()
      ensures c.Valid() && c.model == BackendConnections.Fresh(id) && c !in conns
      ensures c.id == id && c.endpoint == endpoint && c.queue == queue
    {
      hide *;
      ghost var queues: set<SlotList> := pool.arena.model.layout.queues.Keys;
      c := new BackendConn(id, endpoint, queue);
      assert forall q :: q in queues ==> (q as object) != (c as object);
    }

    lemma IdRange()
      requires pool.Valid()
      ensures pool.nextConnId <= MAX_CONN_ID == 0xFFFF
    {
    }

    method NextId() returns (id: Result<nat, PoolError>)
      requires Valid() && pool.Valid() && pool.arena.Valid()
      modifies pool`nextConnId
      ensures Valid() && pool.Valid() && pool.arena.Valid()
      ensures conns == old(conns) && model == old(model) && pool.arena.model == old(pool.arena.model)
      ensures id == if old(pool.nextConnId) == MAX_CONN_ID then Err(TooManyConnections) else Ok(old(pool.nextConnId))
      ensures pool.nextConnId == if id.Ok? then id.value + 1 else old(pool.nextConnId)
    {
      hide *;
      ghost var queues: set<SlotList> := pool.arena.model.layout.queues.Keys;
      assert forall q :: q in queues ==> (q as object) != (pool as object);
      id := pool.AllocConnId();
    }

    method NewQueue() returns (queue: SlotList)
      requires Valid() && pool.Valid() && pool.arena.Valid()
      modifies pool.arena
      ensures ValidAgainst(old(pool.arena.model)) && pool.Valid() && pool.arena.Valid()
      ensures conns == old(conns) && model == old(model) && pool.nextConnId == old(pool.nextConnId)
      ensures queue !in old(pool.arena.model.layout.queues) && queue.realm == realm
      ensures pool.arena.model == Open(old(pool.arena.model), queue, realm)
    {
      Parts();
      hide *;
      queue := pool.arena.OpenList(realm);
    }

    /** A new connection joins the transport. */
    method Attach(c: BackendConn, ghost a: Arena<SlotList>)
      requires ValidAgainst(a) && pool.Valid() && pool.arena.Valid()
      requires c.Valid() && c.model == BackendConnections.Fresh(c.id) && c !in conns
      requires c.queue !in a.layout.queues && pool.arena.model == Open(a, c.queue, realm)
      modifies this`conns, this`model
      ensures Valid() && pool.Valid() && pool.arena.Valid() && pool.arena.model == old(pool.arena.model)
      ensures conns == old(conns) + [c] && model == AddConn(old(model), c.id)
    {
      hide ArenaModel.Inv, PendingMatch, Open, InStep;
      AttachedInStep(conns, a, model, c, realm);
      conns := conns + [c];
      model := AddConn(model, c.id);
    }

    static lemma AttachedInStep(conns: seq<BackendConn>, a: Arena<SlotList>, t: Transport, c: BackendConn, realm: Realm)
      requires InStep(conns, a, t) && c.queue !in a.layout.queues
      ensures InStep(conns + [c], Open(a, c.queue, realm), AddConn(t, c.id))
    {
      var (b, all, u) := (Open(a, c.queue, realm), conns + [c], AddConn(t, c.id));
      forall i | 0 <= i < |all| ensures Feeds(b, all[i].queue, u.conns[i]) {
        if i < |conns| {
          assert Feeds(a, conns[i].queue, t.conns[i]);
        } else {
          assert EventsIn([]) == [];
        }
      }
      forall i | 0 <= i < |conns| ensures conns[i].queue != c.queue {
        assert Feeds(a, conns[i].queue, t.conns[i]);
      }
    }

    // ---- the end of a transport ----

    static ghost function QueuesOf(conns: seq<BackendConn>): set<SlotList> {
      set c | c in conns :: c.queue
    }

    /** The QUIC connections that the first `n` connections hold. */
    static ghost function Held(t: Transport, n: nat): set<Cnx>
      requires n <= |t.conns|
    {
      set i | 0 <= i < n && t.conns[i].cnx.Some? :: t.conns[i].cnx.value
    }

    /** `l` was given back. */
    static ghost predicate Emptied(a: Arena<SlotList>, b: Arena<SlotList>, l: SlotList) {
      ArenaModel.Inv(a) && l in a.layout.queues && b == Discard(a, l)
    }

    static ghost function QueueList(conns: seq<BackendConn>): (r: seq<SlotList>)
      ensures |r| == |conns|
    {
      seq(|conns|, i requires 0 <= i < |conns| => conns[i].queue)
    }

    /** The queues of the first `n` connections were given back, one after the other. */
    static ghost predicate GivenBack(conns: seq<BackendConn>, a: Arena<SlotList>, b: Arena<SlotList>, n: nat) {
      n <= |conns| && ArenaModel.Inv(a) && HasQueues(a, QueueList(conns)[..n]) && b == DiscardAll(a, QueueList(conns)[..n])
    }

    static lemma NoneGivenBack(conns: seq<BackendConn>, a: Arena<SlotList>)
      requires ArenaModel.Inv(a)
      ensures GivenBack(conns, a, a, 0)
    {
      hide ArenaModel.Inv;
    }

    static lemma OneMoreGivenBack(conns: seq<BackendConn>, a: Arena<SlotList>, b: Arena<SlotList>, c: Arena<SlotList>, n: nat)
      requires GivenBack(conns, a, b, n) && n < |conns| && Emptied(b, c, conns[n].queue)
      ensures GivenBack(conns, a, c, n + 1)
    {
      hide ArenaModel.Inv, Discard, DiscardAll, LoansKept;
      DiscardAllBooks(a, QueueList(conns)[..n]);
      assert QueueList(conns)[..n + 1] == QueueList(conns)[..n] + [conns[n].queue];
      DiscardAllSnoc(a, QueueList(conns)[..n], conns[n].queue);
    }

    /** The books of the arena once all are given back. */
    static lemma AllGivenBack(conns: seq<BackendConn>, a: Arena<SlotList>, b: Arena<SlotList>)
      requires GivenBack(conns, a, b, |conns|)
      ensures ArenaModel.Inv(a) && HasQueues(a, QueueList(conns)) && b == DiscardAll(a, QueueList(conns))
      ensures b.accepted == a.accepted && LoansKept(a, b)
    {
      hide ArenaModel.Inv, DiscardAll, LoansKept, HasQueues;
      assert QueueList(conns)[..|conns|] == QueueList(conns);
      DiscardAllBooks(a, QueueList(conns));
    }

    /** The closing transport with its first `n` connections ended. */
    static ghost function ClosedUpTo(t: Transport, n: nat): Transport {
      t.(conns := seq(|t.conns|, i requires 0 <= i < |t.conns| => if i < n then Ended(t.conns[i]) else t.conns[i]), pending := [])
    }

    /** Every failure not yet told is taken back from the pool's count, every connection is detached from
        the QUIC connection it holds, and its queue given back. What is on loan stays on loan. */
    method Shutdown()
      requires Valid() && pool.Valid() && pool.arena.Valid()
      modifies this`model, this`pendingFailures, this`closed, conns, pool`pendingFailures, pool`live, pool.index,
               pool.index.entries, pool.arena, pool.arena.slots, pool.arena.quota, pool.arena.quota.counts, QueuesOf(conns)
      ensures Valid() && pool.Valid() && pool.arena.Valid() && conns == old(conns)
      ensures model == DirectModel.Close(old(model))
      ensures pool.pendingFailures - |pendingFailures| == old(pool.pendingFailures - |pendingFailures|)
      ensures pool.arena.model.accepted == old(pool.arena.model.accepted)
      ensures LoansKept(old(pool.arena.model), pool.arena.model)
      ensures if old(closed) then pool.arena.model == old(pool.arena.model) else GivenBack(conns, old(pool.arena.model), pool.arena.model, |conns|)
      ensures !old(closed) ==> pendingFailures == [] && AllDrained()
      ensures pool.index.Contents == IndexAfter(old(pool.index.Contents), old(model), DoShutdown)
    {
      Parts();
      assert closed ==> DirectModel.Close(model) == model;
      ShutIndex(pool.index.Contents, model);
      hide *;
      if closed {
        LoansKeptSelf(pool.arena.model);
        return;
      }
      ghost var before := pool.arena.model;
      ShutOpen(model, pool.arena.model, pool.index.Contents);
      AllGivenBack(conns, before, pool.arena.model);
    }

    static lemma ShutIndex(index: map<Key, Owner>, t: Transport)
      ensures IndexAfter(index, t, DoShutdown) == if t.closed then index else index - Held(t, |t.conns|)
    {
      assert Held(t, |t.conns|) == Handles(t);
    }

    method ShutOpen(ghost t: Transport, ghost a: Arena<SlotList>, ghost index: map<Key, Owner>)
      requires Valid() && pool.Valid() && pool.arena.Valid() && !closed
      requires t == model && a == pool.arena.model && index == pool.index.Contents
      modifies this`model, this`pendingFailures, this`closed, conns, pool`pendingFailures, pool`live, pool.index,
               pool.index.entries, pool.arena, pool.arena.slots, pool.arena.quota, pool.arena.quota.counts, QueuesOf(conns)
      ensures Valid() && pool.Valid() && pool.arena.Valid() && conns == old(conns)
      ensures model == DirectModel.Close(t) && GivenBack(conns, a, pool.arena.model, |conns|)
      ensures pool.pendingFailures == old(pool.pendingFailures - |pendingFailures|) && pendingFailures == [] && AllDrained()
      ensures pool.index.Contents == index - Held(t, |t.conns|)
    {
      hide *;
      StartClosing(t, a, index);
      EndAll(t, a, index);
      MarkClosed(t, a, index);
    }

    method StartClosing(ghost t: Transport, ghost a: Arena<SlotList>, ghost index: map<Key, Owner>)
      requires Valid() && pool.Valid() && pool.arena.Valid() && !closed
      requires t == model && a == pool.arena.model && index == pool.index.Contents
      modifies this`model, this`pendingFailures, pool`pendingFailures
      ensures Closing(t, a, index, 0) && conns == old(conns) && !t.closed
      ensures pool.pendingFailures == old(pool.pendingFailures - |pendingFailures|) && pendingFailures == []
    {
      Parts();
      assert !t.closed && |t.conns| == |conns|;
      hide *;
      AcknowledgeAll();
      StartsClosing(t, a, index);
    }

    lemma StartsClosing(t: Transport, a: Arena<SlotList>, index: map<Key, Owner>)
      requires Valid() && pool.Valid() && pool.arena.Valid() && |conns| == |t.conns|
      requires model == t.(pending := []) && a == pool.arena.model && index == pool.index.Contents
      ensures Closing(t, a, index, 0)
    {
      CloseStarts(t);
      Fewer(index, {}, {}, {});
      hide *;
      ArenaInv();
      NoneGivenBack(conns, a);
      ClosingIs(t, a, index, 0);
    }

    method EndAll(ghost t: Transport, ghost a: Arena<SlotList>, ghost index: map<Key, Owner>)
      requires Closing(t, a, index, 0)
      modifies this`model, conns, pool`live, pool.index, pool.index.entries,
               pool.arena, pool.arena.slots, pool.arena.quota, pool.arena.quota.counts, QueuesOf(conns)
      ensures Closing(t, a, index, |t.conns|) && conns == old(conns)
    {
      hide *;
      ClosingIs(t, a, index, 0);
      var i: nat := 0;
      while i < |conns|
        invariant i <= |conns| == |t.conns| && Closing(t, a, index, i) && conns == old(conns)
      {
        OneOfThem(conns, i);
        EndNext(t, a, index, i, conns[i]);
        i := i + 1;
      }
    }

    static lemma OneOfThem(conns: seq<BackendConn>, i: nat)
      requires i < |conns|
      ensures conns[i] in conns && conns[i].queue in QueuesOf(conns)
    {
    }

    static lemma CloseStarts(t: Transport)
      ensures t.closed ==> DirectModel.Close(t) == t
      ensures ClosedUpTo(t, 0) == t.(pending := []) && Held(t, 0) == {}
    {
      assert ClosedUpTo(t, 0).conns == t.conns;
    }

    /** One more connection ended. */
    method EndNext(ghost t: Transport, ghost a: Arena<SlotList>, ghost index: map<Key, Owner>, i: nat, c: BackendConn)
      requires Closing(t, a, index, i) && i < |conns| && conns[i] == c
      modifies this`model, c, pool`live, pool.index, pool.index.entries,
               pool.arena, pool.arena.slots, pool.arena.quota, pool.arena.quota.counts, c.queue
      ensures Closing(t, a, index, i + 1) && conns == old(conns)
    {
      hide *;
      ClosingIs(t, a, index, i);
      OneMore(t, i);
      ghost var before := pool.arena.model;
      EndConn(i, c);
      OneMoreGivenBack(conns, a, before, pool.arena.model, i);
      Fewer(index, Held(t, i), Held(t, i + 1), CurrentOf(t.conns[i]));
      ClosingIs(t, a, index, i + 1);
    }

    static lemma Fewer(index: map<Key, Owner>, s: set<Cnx>, t: set<Cnx>, c: set<Cnx>)
      requires t == s + c
      ensures index - s - c == index - t
    {
    }

    lemma ClosingIs(t: Transport, a: Arena<SlotList>, index: map<Key, Owner>, n: nat)
      ensures Closing(t, a, index, n) <==>
                && Valid() && pool.Valid() && pool.arena.Valid() && n <= |t.conns| == |conns|
                && model == ClosedUpTo(t, n) && GivenBack(conns, a, pool.arena.model, n)
                && pool.index.Contents == index - Held(t, n)
    {
      hide ClosedUpTo, InStep, ArenaModel.Inv, GivenBack;
    }

    static lemma OneMore(t: Transport, i: nat)
      requires i < |t.conns|
      ensures var u := ClosedUpTo(t, i);
              |u.conns| == |t.conns| && u.conns[i] == t.conns[i] && SetConn(u, i, Ended(u.conns[i])) == ClosedUpTo(t, i + 1)
      ensures Held(t, i + 1) == Held(t, i) + CurrentOf(t.conns[i])
    {
    }

    method MarkClosed(ghost t: Transport, ghost a: Arena<SlotList>, ghost index: map<Key, Owner>)
      requires !t.closed && Closing(t, a, index, |t.conns|)
      modifies this`closed, this`model
      ensures Valid() && pool.Valid() && pool.arena.Valid() && model == DirectModel.Close(t) && AllDrained()
      ensures GivenBack(conns, a, pool.arena.model, |conns|) && conns == old(conns)
      ensures pool.index.Contents == index - Held(t, |t.conns|)
    {
      hide *;
      ClosingIs(t, a, index, |t.conns|);
      Parts();
      ArenaInv();
      EndedDrain(conns, pool.arena.model, t);
      ghost var queues: set<SlotList> := pool.arena.model.layout.queues.Keys;
      assert forall q :: q in queues ==> (q as object) != (this as object);
      FlagClosed(t);
    }

    method FlagClosed(ghost t: Transport)
      requires !t.closed && Valid() && model == ClosedUpTo(t, |t.conns|)
      requires forall i :: 0 <= i < |conns| ==> Drained(pool.arena.model, conns[i].queue)
      modifies this`closed, this`model
      ensures Valid() && model == DirectModel.Close(t) && AllDrained()
    {
      CloseIsTheEnd(t);
      Parts();
      assert InStep(conns, pool.arena.model, Close(t));
      hide Close, ClosedUpTo, ConnsMatch, PendingMatch, InStep, Drained;
      closed := true;
      model := Close(t);
    }

    static lemma CloseIsTheEnd(t: Transport)
      requires !t.closed
      ensures var u := ClosedUpTo(t, |t.conns|);
              DirectModel.Close(t) == u.(closed := true) && |u.conns| == |t.conns|
    {
      hide Ended;
      var (u, v) := (ClosedUpTo(t, |t.conns|), DirectModel.Close(t));
      assert u.conns == v.conns;
      assert v == u.(closed := true);
    }

    /** Nothing is left in the queue of a connection that has ended. */
    static lemma {:induction false} EndedDrain(conns: seq<BackendConn>, a: Arena<SlotList>, t: Transport)
      requires InStep(conns, a, ClosedUpTo(t, |t.conns|)) && ArenaModel.Inv(a)
      ensures forall i :: 0 <= i < |conns| ==> Drained(a, conns[i].queue)
    {
      hide ArenaModel.Inv, Feeds, Drained;
      forall i | 0 <= i < |conns| ensures Drained(a, conns[i].queue) {
        PoppedAll(a, conns[i].queue, ClosedUpTo(t, |t.conns|).conns[i]);
      }
    }

    static lemma PoppedAll(a: Arena<SlotList>, l: SlotList, c: Conn)
      requires Feeds(a, l, c) && c.taken == |c.accepted| && ArenaModel.Inv(a)
      ensures Drained(a, l)
    {
      assert QueueInv(a, l);
      hide ArenaModel.Inv;
    }

    /** How far closing has come. */
    ghost predicate Closing(t: Transport, a: Arena<SlotList>, index: map<Key, Owner>, n: nat)
      reads this, conns, pool, pool.index, pool.index.entries, pool.arena, pool.arena.slots, pool.arena.buffers,
            pool.arena.quota, pool.arena.quota.counts, pool.arena.model.layout.queues.Keys
    {
      && Valid() && pool.Valid() && pool.arena.Valid() && n <= |t.conns| == |conns|
      && model == ClosedUpTo(t, n) && GivenBack(conns, a, pool.arena.model, n)
      && pool.index.Contents == index - Held(t, n)
    }

    ghost predicate AllDrained()
      reads this`conns, pool.arena`model
    {
      forall i :: 0 <= i < |conns| ==> Drained(pool.arena.model, conns[i].queue)
    }

    static ghost predicate Drained(a: Arena<SlotList>, l: SlotList) {
      l in a.layout.queues && a.layout.queues[l] == []
    }

    method AcknowledgeAll()
      requires Valid() && pool.Valid() && pool.arena.Valid()
      modifies this`model, this`pendingFailures, pool`pendingFailures
      ensures Valid() && pool.Valid() && pool.arena.Valid() && pendingFailures == []
      ensures model == old(model).(pending := []) && pool.pendingFailures == old(pool.pendingFailures - |pendingFailures|)
    {
      Parts();
      hide *;
      TakeBackNotices();
      ghost var queues: set<SlotList> := pool.arena.model.layout.queues.Keys;
      assert forall q :: q in queues ==> (q as object) != (this as object);
      ClearNotices();
    }

    /** The pool's side of it. */
    method TakeBackNotices()
      requires Valid() && pool.Valid() && pool.arena.Valid()
      modifies pool`pendingFailures
      ensures Represents() && InStep(conns, pool.arena.model, model) && pool.Valid() && pool.arena.Valid()
      ensures conns == old(conns) && model == old(model) && pool.pendingFailures == old(pool.pendingFailures) - |pendingFailures|
    {
      Parts();
      hide *;
      ghost var queues: set<SlotList> := pool.arena.model.layout.queues.Keys;
      assert forall q :: q in queues ==> (q as object) != (pool as object);
      for k := 0 to |pendingFailures|
        invariant pool.pendingFailures == old(pool.pendingFailures) - k
        invariant Represents() && InStep(conns, pool.arena.model, model) && pool.Valid() && pool.arena.Valid()
      {
        pool.AcknowledgeFailure();
      }
    }

    method ClearNotices()
      requires Represents() && InStep(conns, pool.arena.model, model)
      modifies this`model, this`pendingFailures
      ensures Valid() && pendingFailures == [] && model == old(model).(pending := [])
    {
      assert InStep(conns, pool.arena.model, model.(pending := []));
      hide ConnsMatch, InStep;
      pendingFailures := [];
      model := model.(pending := []);
    }

    /** Ends one connection. */
    method EndConn(ci: nat, c: BackendConn)
      requires Valid() && pool.Valid() && pool.arena.Valid() && ci < |conns| && conns[ci] == c
      modifies this`model, c, pool`live, pool.index, pool.index.entries,
               pool.arena, pool.arena.slots, pool.arena.quota, pool.arena.quota.counts, c.queue
      ensures Valid() && pool.Valid() && pool.arena.Valid() && ci < |conns| && conns[ci] == c
      ensures model == SetConn(old(model), ci, Ended(old(model).conns[ci]))
      ensures Emptied(old(pool.arena.model), pool.arena.model, c.queue)
      ensures pool.index.Contents == old(pool.index.Contents) - CurrentOf(old(model).conns[ci])
    {
      ghost var before := pool.arena.model;
      ghost var t := model;
      QueueOf(ci);
      hide *;
      Parts();
      Detach(ci, c);
      DropQueue(ci, c);
      MarkEnded(ci, c, before);
    }

    static function CurrentOf(c: Conn): set<Cnx> {
      if c.cnx.None? then {} else {c.cnx.value}
    }

    /** Takes the current QUIC connection off the pool's index. */
    method Detach(ci: nat, c: BackendConn)
      requires Valid() && pool.Valid() && pool.arena.Valid() && ci < |conns| && conns[ci] == c
      modifies pool`live, pool.index, pool.index.entries
      ensures Valid() && pool.Valid() && pool.arena.Valid() && conns == old(conns) && model == old(model)
      ensures pool.arena.model == old(pool.arena.model)
      ensures pool.index.Contents == old(pool.index.Contents) - CurrentOf(model.conns[ci])
    {
      hide *;
      Parts();
      ConnOf(ci);
      ghost var current := CurrentOf(model.conns[ci]);
      CurrentIs(model.conns[ci]);
      if c.cnx.None? {
        assert pool.index.Contents - current == pool.index.Contents;
        return;
      }
      Deregister(c.cnx.value);
    }

    static lemma CurrentIs(c: Conn)
      ensures CurrentOf(c) == if c.cnx.None? then {} else {c.cnx.value}
    {
    }

    method Deregister(from: Cnx)
      requires Valid() && pool.Valid() && pool.arena.Valid()
      modifies pool`live, pool.index, pool.index.entries
      ensures Valid() && pool.Valid() && pool.arena.Valid() && conns == old(conns) && model == old(model)
      ensures pool.arena.model == old(pool.arena.model) && pool.index.Contents == old(pool.index.Contents) - {from}
    {
      hide *;
      ghost var queues: set<SlotList> := pool.arena.model.layout.queues.Keys;
      assert forall q :: q in queues ==> (q as object) != (pool.index as object) && (q as object) != (pool.index.entries as object);
      pool.Unregister(from);
    }

    /** Gives every queued chunk of the connection back. */
    method DropQueue(ci: nat, c: BackendConn)
      requires Valid() && pool.Valid() && pool.arena.Valid() && ci < |conns| && conns[ci] == c && c.queue in pool.arena.model.layout.queues
      modifies pool.arena, pool.arena.slots, pool.arena.quota, pool.arena.quota.counts, c.queue
      ensures ValidAgainst(old(pool.arena.model)) && pool.Valid() && pool.arena.Valid() && conns == old(conns) && model == old(model)
      ensures pool.index.Contents == old(pool.index.Contents) && Emptied(old(pool.arena.model), pool.arena.model, c.queue)
    {
      hide *;
      Parts();
      EmptiedIs(pool.arena.model, c.queue);
      pool.arena.Drop(c.queue);
    }

    lemma EmptiedIs(a: Arena<SlotList>, l: SlotList)
      requires pool.arena.Valid() && a == pool.arena.model && l in a.layout.queues
      ensures ArenaModel.Inv(a) && Emptied(a, Discard(a, l), l)
    {
      hide ArenaModel.Inv, Discard;
    }

    /** The connection follows its queue, and the history records that nothing is left to hand out. */
    method MarkEnded(ci: nat, c: BackendConn, ghost a: Arena<SlotList>)
      requires ValidAgainst(a) && pool.Valid() && pool.arena.Valid() && ci < |conns| && conns[ci] == c
      requires Emptied(a, pool.arena.model, c.queue)
      modifies this`model, c
      ensures Valid() && pool.Valid() && pool.arena.Valid() && conns == old(conns)
      ensures model == SetConn(old(model), ci, Ended(old(model).conns[ci]))
      ensures pool.arena.model == old(pool.arena.model) && pool.index.Contents == old(pool.index.Contents)
    {
      hide *;
      PartsAgainst(a);
      EndedInStep(conns, a, pool.arena.model, model, ci);
      ghost var queues: set<SlotList> := pool.arena.model.layout.queues.Keys;
      assert forall q :: q in queues ==> (q as object) != (c as object) && (q as object) != (this as object);
      FollowEnd(ci, c, a);
    }

    method FollowEnd(ci: nat, c: BackendConn, ghost a: Arena<SlotList>)
      requires ValidAgainst(a) && ci < |conns| && conns[ci] == c && ci < |model.conns|
      requires InStep(conns, pool.arena.model, SetConn(model, ci, Ended(model.conns[ci])))
      modifies this`model, c
      ensures Valid() && conns == old(conns) && model == SetConn(old(model), ci, Ended(old(model).conns[ci]))
    {
      hide InStep, Feeds, Ended, PendingMatch;
      ghost var d := Ended(model.conns[ci]);
      c.End();
      model := SetConn(model, ci, d);
    }

    static lemma EndedInStep(conns: seq<BackendConn>, a: Arena<SlotList>, b: Arena<SlotList>, t: Transport, ci: nat)
      requires InStep(conns, a, t) && ci < |conns| && Emptied(a, b, conns[ci].queue)
      ensures InStep(conns, b, SetConn(t, ci, Ended(t.conns[ci])))
    {
      hide ArenaModel.Inv, Discard, GaveBack, InStep, Feeds;
      assert GaveBack(a, b, conns[ci].queue);
      GivenBackInStep(conns, a, b, t, ci);
    }

    static lemma GivenBackInStep(conns: seq<BackendConn>, a: Arena<SlotList>, b: Arena<SlotList>, t: Transport, ci: nat)
      requires InStep(conns, a, t) && ci < |conns| && GaveBack(a, b, conns[ci].queue)
      ensures InStep(conns, b, SetConn(t, ci, Ended(t.conns[ci])))
    {
      hide EventsIn, LoansKept;
      forall i | 0 <= i < |conns| ensures Feeds(b, conns[i].queue, SetConn(t, ci, Ended(t.conns[ci])).conns[i]) {
        assert Feeds(a, conns[i].queue, t.conns[i]);
      }
    }


    // ---- readers ----

    /** The failure domain of the failure told last. */
    method FailureSelectorNow() returns (s: StreamSelector)
      requires Valid()
      ensures s == FailureSelector(model.lastFailure)
    {
      s := FailureSelector(lastFailureConn);
    }

    /** The stream to discard for a request that timed out. */
    method InvalidateStream(h: Word) returns (r: Option<(Cnx, StreamId)>)
      requires Valid()
      ensures r == InvalidateTarget(model, h)
    {
      hide HandleConnId, HandleGeneration, HandleStreamId;
      var found := ConnById(HandleConnId(h));
      if found.None? {
        return None;
      }
      ConnOf(found.value);
      var c := conns[found.value];
      if c.generation != HandleGeneration(h) {
        return None;
      }
      if c.state != Ready {
        return None;
      }
      if c.cnx.None? {
        return None;
      }
      return Some((c.cnx.value, HandleStreamId(h)));
    }

    lemma QueueOf(ci: nat)
      requires Valid() && ci < |conns|
      ensures conns[ci].queue in pool.arena.model.layout.queues
    {
      assert Feeds(pool.arena.model, conns[ci].queue, model.conns[ci]);
    }

    lemma ConnOf(ci: nat)
      requires Represents() && ci < |conns|
      ensures conns[ci].Valid() && conns[ci].model == model.conns[ci]
      ensures conns[ci].nextStream == model.conns[ci].nextStream && conns[ci].cnx == model.conns[ci].cnx
      ensures forall j :: 0 <= j < |conns| && j != ci ==> conns[j] != conns[ci]
    {
    }

    static lemma SignalKeeps(t: Transport, f: Failure)
      ensures var u := Signal(t, f);
              && u.conns == t.conns && u.next == t.next && u.lastFailure == t.lastFailure && u.closed == t.closed
              && u.surfaced == t.surfaced && u.streams == t.streams
    {
    }
  }
}
