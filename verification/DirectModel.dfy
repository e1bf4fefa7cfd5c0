/** One endpoint connection of the direct transport as a value: its state machine, its generation,
    and the history that the notifications are about. */
module BackendConnections {
  import opened Options
  import opened RealmQuota
  import opened Words
  import opened StreamHandles
  import opened SlotChains
  import opened ArenaModel

  /** A QUIC connection handle. */
  type Cnx = nat

  const U32_MAX: nat := 0xFFFF_FFFF
  const BACKOFF_BASE_US: nat := 100_000
  const BACKOFF_MAX_US: nat := 30_000_000
  const BACKOFF_MAX_SHIFT: nat := 8

  datatype ConnState = Idle | Connecting | Ready | Backoff

  datatype TransportError = ConnectionFailed | SendFailed | Closed | RouteNotFound

  /** One queued event; `epoch` counts the connected events of its connection up to then, and
      `from` is the QUIC connection whose callback brought it. */
  datatype Received = Received(epoch: nat, from: Cnx, event: Event)

  /** `held` says that the resolver's handle of a lookup is held: the latest one issued, until any answer comes in.
      `made`, `live`, `resolving`, `unreported`, `accepted` and `taken` are history: the QUIC
      connection of every connected event, those still in the pool's index, the DNS lookups under
      way, the epochs that ended without a failure notice, all events queued and how many were handed out. */
  datatype Conn = Conn(
    id: ConnId, generation: Generation, state: ConnState, cnx: Option<Cnx>, failureCount: nat, retryAt: nat,
    nextStream: nat, held: bool, made: seq<Cnx>, live: set<Cnx>, resolving: nat, unreported: set<nat>,
    accepted: seq<Received>, taken: nat)

  /** How one DNS answer turned out. */
  datatype Resolution = DnsFailed | ConnectFailed | RegisterRefused | Established(cnx: Cnx)

  /** What QUIC says to one write: the connection is not up, the stream refuses, or it is queued. */
  datatype WriteOutcome = NotConnected | Rejected | Written

  function Fresh(id: ConnId): Conn {
    Conn(id, 0, Idle, None, 0, 0, 0, false, [], {}, 0, {}, [], 0)
  }

  // ---- the state machine ----

  function Delay(failureCount: nat): nat {
    Min(BACKOFF_BASE_US * Pow2(Min(if failureCount == 0 then 0 else failureCount - 1, BACKOFF_MAX_SHIFT)), BACKOFF_MAX_US)
  }

  function MarkFailed(c: Conn, now: nat): Conn {
    var n := Min(c.failureCount + 1, U32_MAX);
    c.(failureCount := n, retryAt := now + Delay(n), state := Backoff)
  }

  /** The only way to start connecting; `started` says whether the DNS lookup could be issued. */
  function EnsureConnecting(c: Conn, now: nat, started: bool): Conn {
    if c.state == Ready || c.state == Connecting || (c.state == Backoff && now < c.retryAt) then c
    else if started then c.(state := Connecting, held := true, resolving := c.resolving + 1)
    else MarkFailed(c, now)
  }

  /** The current epoch joins the unreported ones if it ends here while ready. */
  function Unreported(c: Conn): set<nat> {
    if c.state == Ready then c.unreported + {|c.made|} else c.unreported
  }

  /** A DNS error only informs the waiters: the state stays as it is. */
  function OnResolved(c: Conn, r: Resolution, now: nat): Conn
    requires c.resolving > 0
  {
    var d := c.(held := false, resolving := c.resolving - 1);
    match r
    case DnsFailed => d
    case ConnectFailed => MarkFailed(d, now).(unreported := Unreported(c))
    case RegisterRefused => MarkFailed(d, now).(unreported := Unreported(c))
    case Established(cnx) => d.(cnx := Some(cnx), live := d.live + {cnx})
  }

  /** A new generation; which QUIC connection reports it is not compared with `cnx`. */
  function HookConnected(c: Conn, from: Cnx): Conn {
    c.(generation := (c.generation + 1) % GENERATIONS, nextStream := 0, state := Ready, failureCount := 0, retryAt := 0,
       made := c.made + [from], unreported := Unreported(c))
  }

  function Tagged(c: Conn, from: Cnx, events: seq<Event>): (r: seq<Received>)
    ensures |r| == |events|
  {
    seq(|events|, k requires 0 <= k < |events| => Received(|c.made|, from, events[k]))
  }

  function Queue(c: Conn, from: Cnx, events: seq<Event>): Conn {
    c.(accepted := c.accepted + Tagged(c, from, events))
  }

  function HandleOf(c: Conn, stream: StreamId): Word {
    MakeHandle(c.id, c.generation, stream)
  }

  /** One write. Without a handle a new stream is opened, and its number is used up even if QUIC
      refuses the write. */
  function SendOn(c: Conn, handle: Option<Word>, w: WriteOutcome): (Conn, Result<Word, TransportError>)
    requires handle.None? ==> c.nextStream < STREAM_IDS
  {
    if c.cnx.None? || w.NotConnected? then (c, Err(ConnectionFailed))
    else match handle
      case Some(h) =>
        if HandleConnId(h) != c.id || HandleGeneration(h) != c.generation then (c, Err(TransportError.Closed))
        else if w.Rejected? then (c, Err(SendFailed))
        else (c, Ok(HandleOf(c, HandleStreamId(h))))
      case None =>
        var d := c.(nextStream := c.nextStream + 4);
        if w.Rejected? then (d, Err(SendFailed)) else (d, Ok(HandleOf(c, c.nextStream)))
  }

  /** The write handed to QUIC, if any: on which connection, and on which of its streams. */
  function WrittenTo(c: Conn, handle: Option<Word>, w: WriteOutcome): Option<(Cnx, StreamId)>
    requires handle.None? ==> c.nextStream < STREAM_IDS
  {
    if c.cnx.None? || w.NotConnected? then None
    else match handle
      case Some(h) =>
        if HandleConnId(h) != c.id || HandleGeneration(h) != c.generation then None else Some((c.cnx.value, HandleStreamId(h)))
      case None => Some((c.cnx.value, c.nextStream))
  }

  /** A write on an existing stream changes nothing, reports the caller's own handle, and goes to
      whatever QUIC connection the endpoint holds at that moment. */
  lemma {:induction false} WriteKeepsTheHandle(c: Conn, h: Word, w: WriteOutcome)
    ensures SendOn(c, Some(h), w).1.Ok? ==>
              SendOn(c, Some(h), w) == (c, Ok(h)) && c.cnx.Some? && WrittenTo(c, Some(h), w) == Some((c.cnx.value, HandleStreamId(h)))
  {
    PackOfUnpack(h);
  }

  // ---- backoff ----

  /** The wait doubles with every further failure and levels off at 25.6 seconds: the configured
      ceiling of 30 seconds is never what limits it. */
  lemma BackoffDoubles(n: nat)
    ensures 1 <= n <= 8 ==> Delay(n + 1) == 2 * Delay(n)
    ensures n >= 9 ==> Delay(n) == 25_600_000
    ensures BACKOFF_BASE_US <= Delay(n) <= 25_600_000 < BACKOFF_MAX_US
  {
    assert Pow2(4) == 16;
    PowStep(4, 16);
    var k := Min(if n == 0 then 0 else n - 1, BACKOFF_MAX_SHIFT);
    PowerBound(k);
    if 1 <= n <= 8 {
      PowerBound(k + 1);
    }
  }

  lemma {:induction false} PowerBound(k: nat)
    requires k <= 8
    ensures 1 <= Pow2(k) <= 256
    decreases 8 - k
  {
    if k == 8 {
      assert Pow2(4) == 16;
      PowStep(4, 16);
    } else {
      PowerBound(k + 1);
    }
  }

  /** Until its retry time a failed connection is left alone, and then the next request retries it. */
  lemma BackoffHolds(c: Conn, failedAt: nat, now: nat, started: bool)
    ensures var d := MarkFailed(c, failedAt);
            EnsureConnecting(d, now, started) == d <==> now < failedAt + Delay(d.failureCount)
  {
    BackoffDoubles(MarkFailed(c, failedAt).failureCount);
    hide Delay;
    if c.failureCount >= U32_MAX {
      var d := MarkFailed(c, failedAt);
      assert d.failureCount == U32_MAX;
      assert started || MarkFailed(d, now).retryAt == now + Delay(U32_MAX);
    }
  }

  // ---- what a connection keeps ----

  /** Epoch `e` is over: replaced, or current but no longer ready. */
  predicate Gone(c: Conn, e: nat) {
    e < |c.made| || (e == |c.made| && c.state != Ready)
  }

  /** The event carries a handle of connection `id` in generation `epoch`. */
  predicate BelongsTo(r: Received, id: ConnId) {
    && r.event.streamId < WORD
    && HandleConnId(r.event.streamId) == id && HandleGeneration(r.event.streamId) == r.epoch % GENERATIONS
  }

  ghost predicate ConnInv(c: Conn) {
    && c.generation == |c.made| % GENERATIONS
    && (c.state == Ready ==> c.made != [])
    && c.taken <= |c.accepted| && c.nextStream % 4 == 0
    && (forall k :: 0 <= k < |c.accepted| ==> 1 <= c.accepted[k].epoch <= |c.made| && BelongsTo(c.accepted[k], c.id))
  }

  /** What was over stays over; an epoch that ends here without a failure notice is unreported. */
  ghost predicate EpochsAdvance(c: Conn, d: Conn) {
    && |c.made| <= |d.made| <= |c.made| + 1 && (|d.made| > |c.made| ==> d.state == Ready)
    && (Gone(c, |c.made|) ==> Gone(d, |c.made|))
    && d.unreported == c.unreported + (if Gone(d, |c.made|) && !Gone(c, |c.made|) then {|c.made|} else {})
    && (|d.made| == |c.made| ==> c.nextStream <= d.nextStream)
  }

  /** Nothing queued is taken back, and what is added belongs to an epoch that is not over. */
  ghost predicate QueueGrows(c: Conn, d: Conn) {
    && c.accepted <= d.accepted
    && forall k :: |c.accepted| <= k < |d.accepted| ==> d.accepted[k].epoch == |c.made| && c.state == Ready
  }

  /** How one event of the state machine may change a connection without a failure notice. */
  ghost predicate Advances(c: Conn, d: Conn) {
    ConnInv(d) && d.id == c.id && d.taken == c.taken && EpochsAdvance(c, d) && QueueGrows(c, d)
  }

  lemma ConnectedAdvances(c: Conn, from: Cnx)
    requires ConnInv(c)
    ensures Advances(c, HookConnected(c, from))
  {
  }

  lemma EnsureAdvances(c: Conn, now: nat, started: bool)
    requires ConnInv(c)
    ensures Advances(c, EnsureConnecting(c, now, started))
  {
    hide Delay;
  }

  lemma ResolvedAdvances(c: Conn, r: Resolution, now: nat)
    requires ConnInv(c) && c.resolving > 0
    ensures Advances(c, OnResolved(c, r, now))
  {
    hide Delay;
  }

  lemma SendAdvances(c: Conn, handle: Option<Word>, w: WriteOutcome)
    requires ConnInv(c) && (handle.None? ==> c.nextStream < STREAM_IDS)
    ensures Advances(c, SendOn(c, handle, w).0)
  {
    hide MakeHandle, HandleConnId, HandleGeneration, HandleStreamId, BelongsTo;
  }

  lemma QueueAdvances(c: Conn, from: Cnx, stream: StreamId, events: seq<Event>)
    requires ConnInv(c) && c.state == Ready
    requires forall k :: 0 <= k < |events| ==> events[k].streamId == HandleOf(c, stream)
    ensures Advances(c, Queue(c, from, events))
  {
    UnpackOfPack(c.id, c.generation, stream);
    hide MakeHandle;
  }
}

/** One direct transport as a value: its connections, the failures waiting for the Worker, and
    everything the Worker has been told so far. */
module DirectModel {
  import opened Options
  import opened RealmQuota
  import opened Words
  import opened StreamHandles
  import opened SlotChains
  import opened ArenaModel
  import opened BackendConnections

  /** A queued failure: one generation of one connection. `epoch` tells generations apart that
      share a 16-bit number. */
  datatype Failure = Failure(id: ConnId, generation: Generation, epoch: nat) {
    function Key(): ConnKey {
      ConnectionKey(id, generation)
    }
  }

  /** What one call of receive told the Worker. */
  datatype Surfaced = Delivered(id: ConnId, received: Received) | Failed(failure: Failure)

  /** A stream the gateway opened, and the QUIC connection the opening write went out on. */
  datatype OpenedStream = OpenedStream(id: ConnId, epoch: nat, stream: StreamId, handle: Word, via: Option<Cnx>)

  /** A generation ended by a callback, and the QUIC connection that called. */
  datatype Blame = Blame(failure: Failure, caller: Cnx)

  /** `surfaced`, `streams` and `blamed` are history. */
  datatype Transport = Transport(
    conns: seq<Conn>, next: nat, pending: seq<Failure>, lastFailure: ConnKey, closed: bool,
    surfaced: seq<Surfaced>, streams: seq<OpenedStream>, blamed: seq<Blame>)

  datatype ReceiveError = TransportClosed | ReceiveFailed

  // ---- operations ----

  function ConnById(conns: seq<Conn>, id: ConnId): Option<nat> {
    if conns == [] then None
    else if conns[0].id == id then Some(0)
    else match ConnById(conns[1..], id) case None => None case Some(i) => Some(i + 1)
  }

  lemma {:induction false} ConnByIdFinds(conns: seq<Conn>, id: ConnId)
    ensures match ConnById(conns, id)
            case Some(i) => i < |conns| && conns[i].id == id && forall k :: 0 <= k < i ==> conns[k].id != id
            case None => forall k :: 0 <= k < |conns| ==> conns[k].id != id
  {
    if conns != [] {
      ConnByIdFinds(conns[1..], id);
      assert forall k :: 0 < k < |conns| ==> conns[k] == conns[1..][k - 1];
    }
  }

  predicate KeyQueued(pending: seq<Failure>, key: ConnKey) {
    pending != [] && (pending[0].Key() == key || KeyQueued(pending[1..], key))
  }

  function FailureOf(c: Conn): Failure {
    Failure(c.id, c.generation, |c.made|)
  }

  /** Queues the failure of the current generation unless its key is queued already. */
  function Signal(t: Transport, f: Failure): Transport {
    if KeyQueued(t.pending, f.Key()) then t else t.(pending := t.pending + [f])
  }

  function SetConn(t: Transport, ci: nat, c: Conn): Transport
    requires ci < |t.conns|
  {
    t.(conns := t.conns[ci := c])
  }

  /** Signal the current generation, then back off. */
  function Fail(t: Transport, ci: nat, now: nat): Transport
    requires ci < |t.conns|
  {
    SetConn(Signal(t, FailureOf(t.conns[ci])), ci, MarkFailed(t.conns[ci], now))
  }

  /** Give the current QUIC connection up from inside a callback. */
  function Abort(t: Transport, ci: nat, now: nat): Transport
    requires ci < |t.conns|
  {
    Fail(SetConn(t, ci, t.conns[ci].(cnx := None)), ci, now)
  }

  /** The history of `u` with one more entry: a callback of `from` ended the generation of `c`. */
  function Blaming(u: Transport, c: Conn, from: Cnx): Transport {
    u.(blamed := u.blamed + [Blame(FailureOf(c), from)])
  }

  function OnEvents(t: Transport, ci: nat, from: Cnx, events: seq<Event>, fits: bool, now: nat): Transport
    requires ci < |t.conns|
  {
    if fits then SetConn(t, ci, Queue(t.conns[ci], from, events)) else Blaming(Abort(t, ci, now), t.conns[ci], from)
  }

  /** Stream bytes from QUIC connection `from`; `fits` says whether the arena took them. */
  function HookStreamData(t: Transport, ci: nat, from: Cnx, stream: StreamId, data: seq<Byte>, isFin: bool, fits: bool, now: nat): Transport
    requires ci < |t.conns|
  {
    if t.conns[ci].state != Ready || (data == [] && !isFin) then t
    else OnEvents(t, ci, from, Chunks(HandleOf(t.conns[ci], stream), data, isFin, Data), fits, now)
  }

  function HookStreamControl(t: Transport, ci: nat, from: Cnx, stream: StreamId, kind: RecvKind, fits: bool, now: nat): Transport
    requires ci < |t.conns|
  {
    if t.conns[ci].state != Ready then t
    else OnEvents(t, ci, from, [Event(HandleOf(t.conns[ci], stream), [], true, kind)], fits, now)
  }

  /** A close is taken for the current generation whichever QUIC connection closed. */
  function HookClose(t: Transport, ci: nat, now: nat): Transport
    requires ci < |t.conns|
  {
    var u := SetConn(t, ci, t.conns[ci].(cnx := None));
    if t.conns[ci].state == Ready then Fail(u, ci, now) else SetConn(u, ci, MarkFailed(u.conns[ci], now))
  }

  function Unindex(t: Transport, ci: nat, from: Cnx): Transport
    requires ci < |t.conns|
  {
    SetConn(t, ci, t.conns[ci].(live := t.conns[ci].live - {from}))
  }

  /** After the close callback the pool drops the QUIC connection from its index. */
  function DispatchClose(t: Transport, ci: nat, from: Cnx, now: nat): Transport
    requires ci < |t.conns|
  {
    var u := Unindex(HookClose(t, ci, now), ci, from);
    if t.conns[ci].state == Ready then Blaming(u, t.conns[ci], from) else u
  }

  /** Writing on a stream the caller already has: no other connection is tried, and only a broken
      connection is failed, not a refused stream or a stale handle. */
  function SendExisting(t: Transport, h: Word, w: WriteOutcome, now: nat): (Transport, Result<Word, TransportError>) {
    if t.closed then (t, Err(TransportError.Closed))
    else if t.conns == [] then (t, Err(RouteNotFound))
    else match ConnById(t.conns, HandleConnId(h))
      case None => (t, Err(TransportError.Closed))
      case Some(ci) =>
        ConnByIdFinds(t.conns, HandleConnId(h));
        if t.conns[ci].state != Ready then (t, Err(ConnectionFailed))
        else
          var r := SendOn(t.conns[ci], Some(h), w).1;
          if r == Err(ConnectionFailed) then (Fail(t, ci, now), r) else (t, r)
  }

  /** Stream numbers are left on every ready connection. */
  predicate CanOpen(t: Transport) {
    forall i :: 0 <= i < |t.conns| && t.conns[i].state == Ready ==> t.conns[i].nextStream < STREAM_IDS
  }

  function OutcomeAt(w: seq<WriteOutcome>, i: nat): WriteOutcome {
    if i < |w| then w[i] else NotConnected
  }

  /** The stream just opened on connection `ci`, and the cursor moved past it. */
  function OpenedOn(t: Transport, ci: nat, w: WriteOutcome, h: Word): Transport
    requires ci < |t.conns| && t.conns[ci].nextStream < STREAM_IDS
  {
    var c := t.conns[ci];
    SetConn(t, ci, SendOn(c, None, w).0).(
      next := (ci + 1) % |t.conns|, streams := t.streams + [OpenedStream(c.id, |c.made|, c.nextStream, h, c.cnx)])
  }

  /** The connection refused the new stream: it is failed, whatever the reason. */
  function FailedOn(t: Transport, ci: nat, w: WriteOutcome, now: nat): Transport
    requires ci < |t.conns| && t.conns[ci].nextStream < STREAM_IDS
  {
    Fail(SetConn(t, ci, SendOn(t.conns[ci], None, w).0), ci, now)
  }

  /** Position of the connection tried `offset` places after the cursor. */
  function Turn(n: nat, cursor: nat, offset: nat): (i: nat)
    requires n > 0
    ensures i < n
  {
    (cursor + offset) % n
  }

  /** Tries the connections in turn from the cursor on; `w[i]` is what QUIC answers for the i-th. */
  function TryFrom(t: Transport, cursor: nat, offset: nat, w: seq<WriteOutcome>, now: nat, last: TransportError)
    : (Transport, Result<Word, TransportError>)
    requires t.conns != [] && CanOpen(t)
    decreases |t.conns| - offset
  {
    if offset >= |t.conns| then (t, Err(last))
    else
      var ci := Turn(|t.conns|, cursor, offset);
      if t.conns[ci].state != Ready then TryFrom(t, cursor, offset + 1, w, now, last)
      else match SendOn(t.conns[ci], None, OutcomeAt(w, ci)).1
        case Ok(h) => (OpenedOn(t, ci, OutcomeAt(w, ci), h), Ok(h))
        case Err(e) => TryFrom(FailedOn(t, ci, OutcomeAt(w, ci), now), cursor, offset + 1, w, now, e)
  }

  function EnsureAt(t: Transport, ci: nat, now: nat, started: seq<bool>): Conn
    requires ci < |t.conns|
  {
    EnsureConnecting(t.conns[ci], now, ci < |started| && started[ci])
  }

  /** Wakes every connection that may be retried. */
  function EnsureAll(t: Transport, now: nat, started: seq<bool>): Transport {
    t.(conns := seq(|t.conns|, i requires 0 <= i < |t.conns| => EnsureAt(t, i, now, started)))
  }

  /** Opens a new stream on some ready connection, or wakes them all. */
  function SendNew(t: Transport, w: seq<WriteOutcome>, started: seq<bool>, now: nat): (Transport, Result<Word, TransportError>)
    requires CanOpen(t)
  {
    if t.closed then (t, Err(TransportError.Closed))
    else if t.conns == [] then (t, Err(RouteNotFound))
    else
      var (u, r) := TryFrom(t, t.next, 0, w, now, ConnectionFailed);
      if r.Ok? then (u, r) else (EnsureAll(u, now, started), r)
  }

  /** The first connection with a queued event. */
  function FirstQueued(conns: seq<Conn>): Option<nat> {
    if conns == [] then None
    else if conns[0].taken < |conns[0].accepted| then Some(0)
    else match FirstQueued(conns[1..]) case None => None case Some(i) => Some(i + 1)
  }

  lemma {:induction false} FirstQueuedFinds(conns: seq<Conn>)
    ensures match FirstQueued(conns)
            case Some(i) => i < |conns| && conns[i].taken < |conns[i].accepted|
                            && forall k :: 0 <= k < i ==> conns[k].taken >= |conns[k].accepted|
            case None => forall k :: 0 <= k < |conns| ==> conns[k].taken >= |conns[k].accepted|
  {
    if conns != [] {
      FirstQueuedFinds(conns[1..]);
      assert forall k :: 0 < k < |conns| ==> conns[k] == conns[1..][k - 1];
    }
  }

  function TakeFrom(t: Transport, ci: nat): Transport
    requires ci < |t.conns| && t.conns[ci].taken < |t.conns[ci].accepted|
  {
    var c := t.conns[ci];
    SetConn(t, ci, c.(taken := c.taken + 1)).(surfaced := t.surfaced + [Delivered(c.id, c.accepted[c.taken])])
  }

  /** The newest queued failure, told to the Worker. */
  function TakeFailure(t: Transport): Transport
    requires t.pending != []
  {
    var f := t.pending[|t.pending| - 1];
    t.(pending := t.pending[..|t.pending| - 1], lastFailure := f.Key(), surfaced := t.surfaced + [Failed(f)])
  }

  /** Events first, failures only once no connection has any event queued. */
  function Receive(t: Transport): (Transport, Result<Option<Received>, ReceiveError>) {
    if t.closed then (t, Err(TransportClosed))
    else
      FirstQueuedFinds(t.conns);
      match FirstQueued(t.conns)
      case Some(ci) => (TakeFrom(t, ci), Ok(Some(t.conns[ci].accepted[t.conns[ci].taken])))
      case None => if t.pending != [] then (TakeFailure(t), Err(ReceiveFailed)) else (t, Ok(None))
  }

  /** The stream to discard when a request times out: on the QUIC connection the endpoint holds now,
      if the handle is of its current generation; nothing otherwise. */
  function InvalidateTarget(t: Transport, h: Word): Option<(Cnx, StreamId)> {
    match ConnById(t.conns, HandleConnId(h))
    case None => None
    case Some(ci) =>
      ConnByIdFinds(t.conns, HandleConnId(h));
      var c := t.conns[ci];
      if c.generation == HandleGeneration(h) && c.state == Ready && c.cnx.Some? then Some((c.cnx.value, HandleStreamId(h))) else None
  }

  function AddConn(t: Transport, id: ConnId): Transport {
    t.(conns := t.conns + [Fresh(id)])
  }

  /** A connection as its transport leaves it: detached, its queue given back, and of the lookups still
      out the one whose handle is held is cancelled. No callback of an older QUIC connection is let
      through any more, so none is live, whatever the index still has. */
  function Ended(c: Conn): Conn {
    c.(cnx := None, live := {}, state := Idle, held := false, resolving := c.resolving - Cancelled(c), taken := |c.accepted|)
  }

  /** How many lookups the handle in hand cancels. */
  function Cancelled(c: Conn): (n: nat)
    ensures n <= c.resolving
  {
    if c.held && c.resolving > 0 then 1 else 0
  }

  function Close(t: Transport): Transport {
    if t.closed then t
    else t.(conns := seq(|t.conns|, i requires 0 <= i < |t.conns| => Ended(t.conns[i])), pending := [], closed := true)
  }

  function Initial(): Transport {
    Transport([], 0, [], 0, false, [], [], [])
  }

  // ---- steps ----

  /** No queue, connection id or closing changed. */
  ghost predicate SameQueues(t: Transport, u: Transport) {
    && |u.conns| == |t.conns| && u.closed == t.closed
    && forall i :: 0 <= i < |t.conns| ==>
         u.conns[i].id == t.conns[i].id && u.conns[i].accepted == t.conns[i].accepted && u.conns[i].taken == t.conns[i].taken
  }

  /** Everything that can happen to a transport, in any order. */
  datatype Step =
    | DoCreate(id: ConnId)
    | DoEnsure(ci: nat, now: nat, started: bool)
    | DoResolved(ci: nat, resolution: Resolution, now: nat)
    | DoConnected(ci: nat, from: Cnx)
    | DoStreamData(ci: nat, from: Cnx, stream: StreamId, data: seq<Byte>, isFin: bool, fits: bool, now: nat)
    | DoStreamControl(ci: nat, from: Cnx, stream: StreamId, kind: RecvKind, fits: bool, now: nat)
    | DoClose(ci: nat, from: Cnx, now: nat)
    | DoSend(handle: Word, w: WriteOutcome, now: nat)
    | DoOpen(ws: seq<WriteOutcome>, starts: seq<bool>, now: nat)
    | DoReceive
    | DoShutdown

  function Ids(t: Transport): set<ConnId> {
    set i | 0 <= i < |t.conns| :: t.conns[i].id
  }

  predicate IsLive(t: Transport, cnx: Cnx) {
    exists i :: 0 <= i < |t.conns| && cnx in t.conns[i].live
  }

  /** A callback reaches a connection only while the QUIC connection it concerns is in the index. */
  predicate Enabled(t: Transport, step: Step) {
    match step
    case DoCreate(id) => !t.closed && id !in Ids(t)
    case DoEnsure(ci, _, _) => !t.closed && ci < |t.conns|
    case DoResolved(ci, r, _) =>
      !t.closed && ci < |t.conns| && t.conns[ci].resolving > 0 && (r.Established? ==> !IsLive(t, r.cnx))
    case DoConnected(ci, from) => !t.closed && ci < |t.conns| && from in t.conns[ci].live
    case DoStreamData(ci, from, _, _, _, _, _) => !t.closed && ci < |t.conns| && from in t.conns[ci].live
    case DoStreamControl(ci, from, _, kind, _, _) => !t.closed && ci < |t.conns| && from in t.conns[ci].live && kind != Data
    case DoClose(ci, from, _) => !t.closed && ci < |t.conns| && from in t.conns[ci].live
    case DoSend(_, _, _) => true
    case DoOpen(_, _, _) => CanOpen(t)
    case DoReceive => true
    case DoShutdown => true
  }

  function Apply(t: Transport, step: Step): Transport
    requires Enabled(t, step)
  {
    match step
    case DoCreate(id) => AddConn(t, id)
    case DoEnsure(ci, now, started) => SetConn(t, ci, EnsureConnecting(t.conns[ci], now, started))
    case DoResolved(ci, r, now) => SetConn(t, ci, OnResolved(t.conns[ci], r, now))
    case DoConnected(ci, from) => SetConn(t, ci, HookConnected(t.conns[ci], from))
    case DoStreamData(ci, from, stream, data, isFin, fits, now) => HookStreamData(t, ci, from, stream, data, isFin, fits, now)
    case DoStreamControl(ci, from, stream, kind, fits, now) => HookStreamControl(t, ci, from, stream, kind, fits, now)
    case DoClose(ci, from, now) => DispatchClose(t, ci, from, now)
    case DoSend(h, w, now) => SendExisting(t, h, w, now).0
    case DoOpen(ws, starts, now) => SendNew(t, ws, starts, now).0
    case DoReceive => Receive(t).0
    case DoShutdown => Close(t)
  }

  predicate CanRun(t: Transport, steps: seq<Step>)
    decreases |steps|
  {
    steps == [] || (Enabled(t, steps[0]) && CanRun(Apply(t, steps[0]), steps[1..]))
  }

  function Run(t: Transport, steps: seq<Step>): Transport
    requires CanRun(t, steps)
    decreases |steps|
  {
    if steps == [] then t else Run(Apply(t, steps[0]), steps[1..])
  }
}
