/** What holds of a direct transport in every reachable state: failures are exact, told once and
    told last, and no two streams the gateway opened share a handle within 65536 reconnects. */
module DirectSafety {
  import opened Options
  import opened RealmQuota
  import opened Words
  import opened StreamHandles
  import opened SlotChains
  import opened ArenaModel
  import opened BackendConnections
  import opened DirectModel

  // ---- the invariant ----

  /** The failure names a generation that is over. */
  ghost predicate Over(conns: seq<Conn>, f: Failure) {
    && f.generation == f.epoch % GENERATIONS && 1 <= f.epoch
    && (exists i :: 0 <= i < |conns| && conns[i].id == f.id)
    && forall i :: 0 <= i < |conns| && conns[i].id == f.id ==> Gone(conns[i], f.epoch) && f.epoch <= |conns[i].made|
  }

  /** Nothing of a generation up to `f`'s is still queued. */
  ghost predicate DrainedUpTo(conns: seq<Conn>, f: Failure) {
    forall i, k :: 0 <= i < |conns| && conns[i].id == f.id && conns[i].taken <= k < |conns[i].accepted| ==>
      conns[i].accepted[k].epoch > f.epoch
  }

  ghost predicate Told(surfaced: seq<Surfaced>, f: Failure) {
    Failed(f) in surfaced
  }

  /** Every failure is queued or told at most once. */
  ghost predicate OncePerFailure(t: Transport) {
    && (forall i, j :: 0 <= i < j < |t.pending| ==> t.pending[i] != t.pending[j])
    && (forall i :: 0 <= i < |t.pending| ==> !Told(t.surfaced, t.pending[i]))
    && (forall i, j :: 0 <= i < j < |t.surfaced| && t.surfaced[i].Failed? ==> t.surfaced[i] != t.surfaced[j])
  }

  /** Among what was told, no event follows the failure of its own or a later generation. */
  ghost predicate FailureIsLast(surfaced: seq<Surfaced>) {
    forall i, j :: 0 <= i < j < |surfaced| && surfaced[i].Failed? && surfaced[j].Delivered? ==>
      surfaced[j].id == surfaced[i].failure.id ==> surfaced[j].received.epoch > surfaced[i].failure.epoch
  }

  ghost predicate SurfacedInv(t: Transport) {
    && (forall k :: 0 <= k < |t.surfaced| && t.surfaced[k].Failed? ==>
          Over(t.conns, t.surfaced[k].failure) && DrainedUpTo(t.conns, t.surfaced[k].failure))
    && (forall k :: 0 <= k < |t.surfaced| && t.surfaced[k].Delivered? ==> BelongsTo(t.surfaced[k].received, t.surfaced[k].id))
    && FailureIsLast(t.surfaced)
  }

  /** A failure with the number of generation `e` is queued or was told. */
  ghost predicate Reported(t: Transport, id: ConnId, e: nat) {
    exists f: Failure :: (f in t.pending || Told(t.surfaced, f)) && f.id == id && f.epoch <= e && f.generation == e % GENERATIONS
  }

  /** The failure of generation `e`, were it signalled. */
  function FailureAt(id: ConnId, e: nat): Failure {
    Failure(id, e % GENERATIONS, e)
  }

  /** What is on the record as unreported is over, and its failure is neither queued nor told. */
  ghost predicate UnreportedInv(t: Transport) {
    forall i, e :: 0 <= i < |t.conns| && e in t.conns[i].unreported ==>
      && 1 <= e <= |t.conns[i].made| && Gone(t.conns[i], e)
      && FailureAt(t.conns[i].id, e) !in t.pending && !Told(t.surfaced, FailureAt(t.conns[i].id, e))
  }

  /** Every generation that is over was reported, or is on the record as unreported. */
  ghost predicate AllReported(t: Transport) {
    forall i, e :: 0 <= i < |t.conns| && 1 <= e <= |t.conns[i].made| && Gone(t.conns[i], e) ==>
      e in t.conns[i].unreported || Reported(t, t.conns[i].id, e)
  }

  ghost predicate StreamKnown(conns: seq<Conn>, o: OpenedStream) {
    && o.handle == MakeHandle(o.id, o.epoch % GENERATIONS, o.stream) && o.stream % 4 == 0
    && forall i :: 0 <= i < |conns| && conns[i].id == o.id ==>
         o.epoch <= |conns[i].made| && (o.epoch == |conns[i].made| ==> o.stream < conns[i].nextStream)
  }

  ghost predicate StreamsInv(t: Transport) {
    && (forall k :: 0 <= k < |t.streams| ==> t.streams[k].id in Ids(t) && StreamKnown(t.conns, t.streams[k]))
    && (forall k, l :: 0 <= k < l < |t.streams| && t.streams[k].id == t.streams[l].id && t.streams[k].epoch == t.streams[l].epoch ==>
          t.streams[k].stream != t.streams[l].stream)
  }

  ghost predicate ConnsInv(t: Transport) {
    && (forall i :: 0 <= i < |t.conns| ==> ConnInv(t.conns[i]))
    && (forall i, j :: 0 <= i < j < |t.conns| ==> t.conns[i].id != t.conns[j].id)
  }

  ghost predicate PendingInv(t: Transport) {
    forall k :: 0 <= k < |t.pending| ==> Over(t.conns, t.pending[k])
  }

  ghost predicate Inv(t: Transport) {
    && ConnsInv(t) && PendingInv(t) && OncePerFailure(t) && SurfacedInv(t) && StreamsInv(t) && UnreportedInv(t)
    && (!t.closed ==> AllReported(t))
  }

  // ---- connections advance ----

  ghost predicate AllAdvance(a: seq<Conn>, b: seq<Conn>) {
    |a| == |b| && forall i :: 0 <= i < |a| ==> Advances(a[i], b[i])
  }

  lemma OneAdvances(conns: seq<Conn>, ci: nat, c: Conn)
    requires ci < |conns| && Advances(conns[ci], c) && forall i :: 0 <= i < |conns| ==> ConnInv(conns[i])
    ensures AllAdvance(conns, conns[ci := c])
  {
  }

  lemma OverAdvances(a: seq<Conn>, b: seq<Conn>, f: Failure)
    requires AllAdvance(a, b) && Over(a, f)
    ensures Over(b, f)
  {
    var i :| 0 <= i < |a| && a[i].id == f.id;
    assert Advances(a[i], b[i]);
    hide ConnInv, QueueGrows;
    forall j | 0 <= j < |b| && b[j].id == f.id ensures Gone(b[j], f.epoch) && f.epoch <= |b[j].made| {
      assert Advances(a[j], b[j]);
    }
  }

  lemma DrainedAdvances(a: seq<Conn>, b: seq<Conn>, f: Failure)
    requires AllAdvance(a, b) && Over(a, f) && DrainedUpTo(a, f)
    ensures DrainedUpTo(b, f)
  {
    hide ConnInv, EpochsAdvance;
    forall i, k | 0 <= i < |b| && b[i].id == f.id && b[i].taken <= k < |b[i].accepted| ensures b[i].accepted[k].epoch > f.epoch {
      assert Advances(a[i], b[i]);
      if k < |a[i].accepted| {
        assert b[i].accepted[k] == a[i].accepted[k];
      }
    }
  }

  lemma StreamAdvances(a: seq<Conn>, b: seq<Conn>, o: OpenedStream)
    requires AllAdvance(a, b) && StreamKnown(a, o)
    ensures StreamKnown(b, o)
  {
    hide ConnInv, QueueGrows;
    forall i | 0 <= i < |b| && b[i].id == o.id
      ensures o.epoch <= |b[i].made| && (o.epoch == |b[i].made| ==> o.stream < b[i].nextStream)
    {
      assert Advances(a[i], b[i]);
    }
  }

  lemma ReportsAdvance(t: Transport, conns: seq<Conn>)
    requires AllAdvance(t.conns, conns) && AllReported(t)
    ensures AllReported(t.(conns := conns))
  {
    var u := t.(conns := conns);
    hide ConnInv, QueueGrows;
    forall i, e | 0 <= i < |u.conns| && 1 <= e <= |u.conns[i].made| && Gone(u.conns[i], e)
      ensures e in u.conns[i].unreported || Reported(u, u.conns[i].id, e)
    {
      var c, d := t.conns[i], conns[i];
      assert Advances(c, d);
      if Gone(c, e) && e <= |c.made| {
        assert e in c.unreported || Reported(t, c.id, e);
      }
    }
  }

  lemma IdsAdvance(t: Transport, conns: seq<Conn>)
    requires AllAdvance(t.conns, conns)
    ensures Ids(t.(conns := conns)) == Ids(t)
  {
    var u := t.(conns := conns);
    forall i | 0 <= i < |conns| ensures conns[i].id == t.conns[i].id {
      assert Advances(t.conns[i], conns[i]);
    }
    forall id | id in Ids(t) ensures id in Ids(u) {
      var i :| 0 <= i < |t.conns| && t.conns[i].id == id;
      assert conns[i].id == id;
    }
    forall id | id in Ids(u) ensures id in Ids(t) {
      var i :| 0 <= i < |conns| && conns[i].id == id;
      assert t.conns[i].id == id;
    }
  }

  lemma ConnsAdvance(a: seq<Conn>, b: seq<Conn>)
    requires AllAdvance(a, b) && forall i, j :: 0 <= i < j < |a| ==> a[i].id != a[j].id
    ensures forall i :: 0 <= i < |b| ==> ConnInv(b[i])
    ensures forall i, j :: 0 <= i < j < |b| ==> b[i].id != b[j].id
  {
    hide ConnInv, QueueGrows, EpochsAdvance;
    forall i | 0 <= i < |b| ensures b[i].id == a[i].id && ConnInv(b[i]) {
      assert Advances(a[i], b[i]);
    }
  }

  lemma UnreportedAdvances(t: Transport, conns: seq<Conn>)
    requires Inv(t) && AllAdvance(t.conns, conns)
    ensures UnreportedInv(t.(conns := conns))
  {
    forall i, e | 0 <= i < |conns| && e in conns[i].unreported
      ensures 1 <= e <= |conns[i].made| && Gone(conns[i], e)
      ensures FailureAt(conns[i].id, e) !in t.pending && !Told(t.surfaced, FailureAt(conns[i].id, e))
    {
      var c := t.conns[i];
      assert Advances(c, conns[i]) && ConnInv(c);
      if e !in c.unreported {
        ReadyIsUnreported(t, i);
        assert FailureAt(c.id, e) == FailureOf(c);
      }
    }
  }

  /** Connections that only advance keep the whole invariant. */
  lemma {:induction false} AdvanceKeepsInv(t: Transport, conns: seq<Conn>)
    requires Inv(t) && AllAdvance(t.conns, conns)
    ensures Inv(t.(conns := conns))
  {
    var u := t.(conns := conns);
    UnreportedAdvances(t, conns);
    hide AllAdvance, Over, DrainedUpTo, StreamKnown, AllReported, ConnInv, BelongsTo, FailureIsLast, Ids, UnreportedInv;
    ConnsAdvance(t.conns, conns);
    IdsAdvance(t, conns);
    forall k | 0 <= k < |t.pending| ensures Over(conns, t.pending[k]) {
      OverAdvances(t.conns, conns, t.pending[k]);
    }
    forall k | 0 <= k < |t.surfaced| && t.surfaced[k].Failed?
      ensures Over(conns, t.surfaced[k].failure) && DrainedUpTo(conns, t.surfaced[k].failure)
    {
      OverAdvances(t.conns, conns, t.surfaced[k].failure);
      DrainedAdvances(t.conns, conns, t.surfaced[k].failure);
    }
    forall k | 0 <= k < |t.streams| ensures StreamKnown(conns, t.streams[k]) {
      StreamAdvances(t.conns, conns, t.streams[k]);
    }
    if !t.closed {
      ReportsAdvance(t, conns);
    }
  }

  lemma {:induction false} SetKeepsInv(t: Transport, ci: nat, c: Conn)
    requires Inv(t) && ci < |t.conns| && Advances(t.conns[ci], c)
    ensures Inv(SetConn(t, ci, c))
  {
    OneAdvances(t.conns, ci, c);
    hide *;
    assert SetConn(t, ci, c) == t.(conns := t.conns[ci := c]) by { DefSet(t, ci, c); }
    AdvanceKeepsInv(t, t.conns[ci := c]);
  }

  lemma DefSet(t: Transport, ci: nat, c: Conn)
    requires ci < |t.conns|
    ensures SetConn(t, ci, c) == t.(conns := t.conns[ci := c])
  {
  }

  // ---- a ready connection fails ----

  lemma {:induction false} KeyQueuedMeans(pending: seq<Failure>, key: ConnKey)
    ensures KeyQueued(pending, key) <==> exists k :: 0 <= k < |pending| && pending[k].Key() == key
  {
    if pending != [] {
      KeyQueuedMeans(pending[1..], key);
      if KeyQueued(pending[1..], key) {
        var k :| 0 <= k < |pending[1..]| && pending[1..][k].Key() == key;
        assert pending[k + 1].Key() == key;
      }
      if k :| 0 < k < |pending| && pending[k].Key() == key {
        assert pending[1..][k - 1].Key() == key;
      }
    }
  }

  /** Same connection, same history, but not ready any more. */
  ghost predicate Broken(c: Conn, d: Conn) {
    && d.state != Ready && d.id == c.id && d.generation == c.generation && d.made == c.made && d.accepted == c.accepted
    && d.taken == c.taken && d.unreported == c.unreported && d.nextStream == c.nextStream
  }

  lemma BrokenKeepsConns(t: Transport, ci: nat, d: Conn, f: Failure)
    requires ci < |t.conns| && Broken(t.conns[ci], d)
    ensures var conns := t.conns[ci := d];
            && (Over(t.conns, f) ==> Over(conns, f)) && (DrainedUpTo(t.conns, f) ==> DrainedUpTo(conns, f))
            && (ConnInv(t.conns[ci]) ==> ConnInv(d))
            && Ids(t.(conns := conns)) == Ids(t)
  {
    var conns := t.conns[ci := d];
    if Over(t.conns, f) {
      var i :| 0 <= i < |t.conns| && t.conns[i].id == f.id;
      assert conns[i].id == f.id;
    }
    forall id | id in Ids(t) ensures id in Ids(t.(conns := conns)) {
      var i :| 0 <= i < |t.conns| && t.conns[i].id == id;
      assert conns[i].id == id;
    }
  }

  /** A ready generation was never reported before. */
  lemma ReadyIsUnreported(t: Transport, ci: nat)
    requires Inv(t) && ci < |t.conns| && t.conns[ci].state == Ready
    ensures var f := FailureOf(t.conns[ci]); f !in t.pending && !Told(t.surfaced, f)
    ensures 1 <= FailureOf(t.conns[ci]).epoch && FailureOf(t.conns[ci]).generation == FailureOf(t.conns[ci]).epoch % GENERATIONS
  {
    var f := FailureOf(t.conns[ci]);
    assert !Over(t.conns, f);
  }

  lemma BrokenIsOver(t: Transport, ci: nat, d: Conn)
    requires ConnsInv(t) && ci < |t.conns| && t.conns[ci].state == Ready && Broken(t.conns[ci], d)
    ensures Over(t.conns[ci := d], FailureOf(t.conns[ci]))
  {
    assert t.conns[ci := d][ci].id == t.conns[ci].id;
    assert ConnInv(t.conns[ci]);
  }

  lemma SignalReports(t: Transport, ci: nat)
    requires ConnsInv(t) && PendingInv(t) && ci < |t.conns|
    ensures Reported(Signal(t, FailureOf(t.conns[ci])), t.conns[ci].id, |t.conns[ci].made|)
  {
    var c := t.conns[ci];
    var f := FailureOf(c);
    assert ConnInv(c);
    KeyQueuedMeans(t.pending, f.Key());
    if KeyQueued(t.pending, f.Key()) {
      var k :| 0 <= k < |t.pending| && t.pending[k].Key() == f.Key();
      KeysAreDistinct(t.pending[k].id, t.pending[k].generation, f.id, f.generation);
      assert Over(t.conns, t.pending[k]) && t.pending[k] in t.pending;
    } else {
      assert f in Signal(t, f).pending;
    }
  }

  lemma {:induction false} FailReports(t: Transport, ci: nat, d: Conn)
    requires ConnsInv(t) && PendingInv(t) && AllReported(t) && ci < |t.conns| && Broken(t.conns[ci], d)
    ensures AllReported(SetConn(Signal(t, FailureOf(t.conns[ci])), ci, d))
  {
    var s := Signal(t, FailureOf(t.conns[ci]));
    var u := SetConn(s, ci, d);
    SignalReports(t, ci);
    forall i, e | 0 <= i < |u.conns| && 1 <= e <= |u.conns[i].made| && Gone(u.conns[i], e)
      ensures e in u.conns[i].unreported || Reported(u, u.conns[i].id, e)
    {
      if i != ci || e < |d.made| {
        assert Gone(t.conns[i], e);
        if Reported(t, t.conns[i].id, e) {
          ReportsGrow(t, u, t.conns[i].id, e);
        }
      } else {
        ReportsGrow(s, u, d.id, e);
      }
    }
  }

  lemma ReportsGrow(t: Transport, u: Transport, id: ConnId, e: nat)
    requires Reported(t, id, e) && t.pending <= u.pending && t.surfaced == u.surfaced
    ensures Reported(u, id, e)
  {
    var f: Failure :| (f in t.pending || Told(t.surfaced, f)) && f.id == id && f.epoch <= e && f.generation == e % GENERATIONS;
    assert f in t.pending ==> f in u.pending;
  }

  lemma SignalOnce(t: Transport, f: Failure)
    requires OncePerFailure(t) && f !in t.pending && !Told(t.surfaced, f)
    ensures OncePerFailure(Signal(t, f))
  {
    hide Told;
  }

  /** A connection whose current generation is reported, then broken. */
  lemma {:induction false} BreakKeepsInv(t: Transport, ci: nat, d: Conn)
    requires Inv(t) && ci < |t.conns| && t.conns[ci].state == Ready && Broken(t.conns[ci], d)
    ensures Inv(SetConn(Signal(t, FailureOf(t.conns[ci])), ci, d))
  {
    hide Over, AllReported, SurfacedInv, StreamsInv, ConnsInv, PendingInv, OncePerFailure, Broken, Told, UnreportedInv;
    ReadyIsUnreported(t, ci);
    BrokenIsOver(t, ci, d);
    BreakKeepsConns(t, ci, d);
    if !t.closed {
      FailReports(t, ci, d);
    }
    BreakKeepsPending(t, ci, d);
    BreakKeepsSurfaced(t, ci, d);
    BreakKeepsStreams(t, ci, d);
    BreakKeepsUnreported(t, ci, d);
  }

  lemma BreakKeepsUnreported(t: Transport, ci: nat, d: Conn)
    requires UnreportedInv(t) && ConnsInv(t) && ci < |t.conns| && t.conns[ci].state == Ready && Broken(t.conns[ci], d)
    ensures UnreportedInv(SetConn(Signal(t, FailureOf(t.conns[ci])), ci, d))
  {
    var f := FailureOf(t.conns[ci]);
    var u := SetConn(Signal(t, f), ci, d);
    hide Told, ConnInv, KeyQueued;
    forall i, e | 0 <= i < |u.conns| && e in u.conns[i].unreported
      ensures 1 <= e <= |u.conns[i].made| && Gone(u.conns[i], e)
      ensures FailureAt(u.conns[i].id, e) !in u.pending && !Told(u.surfaced, FailureAt(u.conns[i].id, e))
    {
      assert e in t.conns[i].unreported;
      assert i == ci ==> e != f.epoch;
      assert i != ci ==> t.conns[i].id != f.id;
    }
  }

  lemma BreakKeepsConns(t: Transport, ci: nat, d: Conn)
    requires ConnsInv(t) && OncePerFailure(t) && ci < |t.conns| && Broken(t.conns[ci], d)
    requires FailureOf(t.conns[ci]) !in t.pending && !Told(t.surfaced, FailureOf(t.conns[ci]))
    ensures var u := SetConn(Signal(t, FailureOf(t.conns[ci])), ci, d); ConnsInv(u) && OncePerFailure(u)
  {
    SignalOnce(t, FailureOf(t.conns[ci]));
    BrokenKeepsConns(t, ci, d, FailureOf(t.conns[ci]));
    hide Told, ConnInv;
  }

  lemma {:induction false} BreakKeepsPending(t: Transport, ci: nat, d: Conn)
    requires PendingInv(t) && ci < |t.conns| && Broken(t.conns[ci], d)
    requires Over(t.conns[ci := d], FailureOf(t.conns[ci]))
    ensures PendingInv(SetConn(Signal(t, FailureOf(t.conns[ci])), ci, d))
  {
    forall k | 0 <= k < |t.pending| ensures Over(t.conns[ci := d], t.pending[k]) {
      BrokenKeepsConns(t, ci, d, t.pending[k]);
    }
    hide Over, Broken;
  }

  lemma {:induction false} BreakKeepsSurfaced(t: Transport, ci: nat, d: Conn)
    requires SurfacedInv(t) && ci < |t.conns| && Broken(t.conns[ci], d)
    ensures SurfacedInv(SetConn(Signal(t, FailureOf(t.conns[ci])), ci, d))
  {
    hide Over, DrainedUpTo, Broken, FailureIsLast, BelongsTo;
    forall k | 0 <= k < |t.surfaced| && t.surfaced[k].Failed?
      ensures Over(t.conns[ci := d], t.surfaced[k].failure) && DrainedUpTo(t.conns[ci := d], t.surfaced[k].failure)
    {
      BrokenKeepsConns(t, ci, d, t.surfaced[k].failure);
    }
  }

  lemma {:induction false} BreakKeepsStreams(t: Transport, ci: nat, d: Conn)
    requires StreamsInv(t) && ci < |t.conns| && Broken(t.conns[ci], d)
    ensures StreamsInv(SetConn(Signal(t, FailureOf(t.conns[ci])), ci, d))
  {
    var u := SetConn(Signal(t, FailureOf(t.conns[ci])), ci, d);
    BrokenKeepsConns(t, ci, d, FailureOf(t.conns[ci]));
    assert Ids(u) == Ids(t.(conns := t.conns[ci := d]));
    hide Ids;
  }

  lemma {:induction false} FailKeepsInv(t: Transport, ci: nat, now: nat)
    requires Inv(t) && ci < |t.conns| && t.conns[ci].state == Ready
    ensures Inv(Fail(t, ci, now))
  {
    assert Broken(t.conns[ci], MarkFailed(t.conns[ci], now)) by { hide Delay; }
    assert Fail(t, ci, now) == SetConn(Signal(t, FailureOf(t.conns[ci])), ci, MarkFailed(t.conns[ci], now));
    hide *;
    BreakKeepsInv(t, ci, MarkFailed(t.conns[ci], now));
  }

  // ---- the Worker receives ----

  /** Same connection, but events were handed out or given back. */
  ghost predicate Took(c: Conn, d: Conn) {
    && d.id == c.id && d.generation == c.generation && d.made == c.made && d.accepted == c.accepted
    && c.taken <= d.taken <= |c.accepted| && d.unreported == c.unreported && d.nextStream == c.nextStream
    && (d.state == c.state || d.state == Idle)
  }

  ghost predicate AllTook(a: seq<Conn>, b: seq<Conn>) {
    |a| == |b| && forall i :: 0 <= i < |a| ==> Took(a[i], b[i])
  }

  lemma TookKeepsOver(a: seq<Conn>, b: seq<Conn>, f: Failure)
    requires AllTook(a, b) && Over(a, f)
    ensures Over(b, f)
  {
    var i :| 0 <= i < |a| && a[i].id == f.id;
    assert Took(a[i], b[i]);
    forall j | 0 <= j < |b| && b[j].id == f.id ensures Gone(b[j], f.epoch) && f.epoch <= |b[j].made| {
      assert Took(a[j], b[j]);
    }
  }

  lemma TookKeepsDrained(a: seq<Conn>, b: seq<Conn>, f: Failure)
    requires AllTook(a, b) && DrainedUpTo(a, f)
    ensures DrainedUpTo(b, f)
  {
    forall i, k | 0 <= i < |b| && b[i].id == f.id && b[i].taken <= k < |b[i].accepted| ensures b[i].accepted[k].epoch > f.epoch {
      assert Took(a[i], b[i]);
    }
  }

  lemma TookKeepsConns(t: Transport, conns: seq<Conn>)
    requires ConnsInv(t) && AllTook(t.conns, conns)
    ensures ConnsInv(t.(conns := conns)) && Ids(t.(conns := conns)) == Ids(t)
  {
    var u := t.(conns := conns);
    forall i | 0 <= i < |conns| ensures ConnInv(conns[i]) && conns[i].id == t.conns[i].id {
      assert Took(t.conns[i], conns[i]) && ConnInv(t.conns[i]);
    }
    hide ConnInv;
    forall id | id in Ids(t) ensures id in Ids(u) {
      var i :| 0 <= i < |t.conns| && t.conns[i].id == id;
      assert conns[i].id == id;
    }
  }

  lemma TookKeepsStreams(t: Transport, conns: seq<Conn>)
    requires ConnsInv(t) && StreamsInv(t) && AllTook(t.conns, conns)
    ensures StreamsInv(t.(conns := conns))
  {
    TookKeepsConns(t, conns);
    hide Ids, ConnInv;
    forall k | 0 <= k < |t.streams| ensures StreamKnown(conns, t.streams[k]) {
      forall i | 0 <= i < |conns| && conns[i].id == t.streams[k].id
        ensures t.streams[k].epoch <= |conns[i].made|
        ensures t.streams[k].epoch == |conns[i].made| ==> t.streams[k].stream < conns[i].nextStream
      {
        assert Took(t.conns[i], conns[i]) && StreamKnown(t.conns, t.streams[k]);
      }
    }
  }

  lemma TookKeepsUnreported(t: Transport, conns: seq<Conn>)
    requires UnreportedInv(t) && AllTook(t.conns, conns)
    ensures UnreportedInv(t.(conns := conns))
  {
    hide Told;
    forall i | 0 <= i < |conns| ensures Took(t.conns[i], conns[i]) {
    }
  }

  /** Handing events out moves no generation and reports nothing. */
  lemma {:induction false} TookKeepsInv(t: Transport, conns: seq<Conn>)
    requires Inv(t) && AllTook(t.conns, conns)
    ensures ConnsInv(t.(conns := conns)) && PendingInv(t.(conns := conns)) && OncePerFailure(t.(conns := conns))
    ensures SurfacedInv(t.(conns := conns)) && StreamsInv(t.(conns := conns)) && UnreportedInv(t.(conns := conns))
  {
    TookKeepsConns(t, conns);
    TookKeepsStreams(t, conns);
    TookKeepsUnreported(t, conns);
    hide UnreportedInv;
    hide AllTook, Over, DrainedUpTo, ConnsInv, StreamsInv, BelongsTo, FailureIsLast, AllReported;
    forall k | 0 <= k < |t.pending| ensures Over(conns, t.pending[k]) {
      TookKeepsOver(t.conns, conns, t.pending[k]);
    }
    forall k | 0 <= k < |t.surfaced| && t.surfaced[k].Failed?
      ensures Over(conns, t.surfaced[k].failure) && DrainedUpTo(conns, t.surfaced[k].failure)
    {
      TookKeepsOver(t.conns, conns, t.surfaced[k].failure);
      TookKeepsDrained(t.conns, conns, t.surfaced[k].failure);
    }
  }

  lemma TookKeepsReports(t: Transport, ci: nat, d: Conn)
    requires AllReported(t) && ci < |t.conns| && Took(t.conns[ci], d) && d.state == t.conns[ci].state
    ensures AllReported(SetConn(t, ci, d))
  {
    var u := SetConn(t, ci, d);
    forall i, e | 0 <= i < |u.conns| && 1 <= e <= |u.conns[i].made| && Gone(u.conns[i], e)
      ensures e in u.conns[i].unreported || Reported(u, u.conns[i].id, e)
    {
      assert Gone(t.conns[i], e);
      if Reported(t, t.conns[i].id, e) {
        ReportsGrow(t, u, t.conns[i].id, e);
      }
    }
  }

  /** The next thing told to the Worker is an event; its epoch is newer than every failure told. */
  lemma TellEvent(t: Transport, ci: nat)
    requires SurfacedInv(t) && ConnsInv(t) && ci < |t.conns| && t.conns[ci].taken < |t.conns[ci].accepted|
    ensures var r := t.conns[ci].accepted[t.conns[ci].taken];
            BelongsTo(r, t.conns[ci].id) && FailureIsLast(t.surfaced + [Delivered(t.conns[ci].id, r)])
  {
    var c := t.conns[ci];
    var r := c.accepted[c.taken];
    assert ConnInv(c);
    hide ConnInv, Over;
    var told := t.surfaced + [Delivered(c.id, r)];
    forall i | 0 <= i < |t.surfaced| && t.surfaced[i].Failed? && t.surfaced[i].failure.id == c.id
      ensures r.epoch > t.surfaced[i].failure.epoch
    {
      assert DrainedUpTo(t.conns, t.surfaced[i].failure);
    }
  }

  lemma {:induction false} TakeFromKeepsInv(t: Transport, ci: nat)
    requires Inv(t) && ci < |t.conns| && t.conns[ci].taken < |t.conns[ci].accepted|
    ensures Inv(TakeFrom(t, ci))
  {
    var c := t.conns[ci];
    var d := c.(taken := c.taken + 1);
    var told := Delivered(c.id, c.accepted[c.taken]);
    var u := t.(conns := t.conns[ci := d]);
    assert AllTook(t.conns, u.conns);
    TellEvent(t, ci);
    hide AllReported, ConnsInv, SurfacedInv, StreamsInv, UnreportedInv, OncePerFailure, PendingInv, FailureIsLast, BelongsTo;
    TookKeepsInv(t, u.conns);
    if !t.closed {
      TookKeepsReports(t, ci, d);
      ReportsSurviveTelling(u, told, TakeFrom(t, ci));
    }
    OnceSurvivesEvent(u, told);
    UnreportedSurvives(u, told, TakeFrom(t, ci));
    TellingKeeps(u, told, TakeFrom(t, ci));
  }

  /** What telling one more thing leaves alone. */
  lemma TellingKeeps(t: Transport, s: Surfaced, u: Transport)
    requires ConnsInv(t) && StreamsInv(t) && SurfacedInv(t) && PendingInv(t)
    requires u.conns == t.conns && u.surfaced == t.surfaced + [s] && u.pending <= t.pending && u.streams == t.streams
    requires FailureIsLast(u.surfaced)
    requires if s.Failed? then Over(t.conns, s.failure) && DrainedUpTo(t.conns, s.failure) else BelongsTo(s.received, s.id)
    ensures ConnsInv(u) && StreamsInv(u) && SurfacedInv(u) && PendingInv(u)
  {
    hide Over, DrainedUpTo, BelongsTo, FailureIsLast, ConnInv, StreamKnown;
    assert Ids(u) == Ids(t);
    hide Ids;
  }

  lemma OnceSurvivesEvent(t: Transport, s: Surfaced)
    requires OncePerFailure(t) && s.Delivered?
    ensures OncePerFailure(t.(surfaced := t.surfaced + [s]))
  {
  }

  /** Telling more moves no report away. */
  lemma ReportsSurviveTelling(t: Transport, s: Surfaced, u: Transport)
    requires AllReported(t) && u.conns == t.conns && u.surfaced == t.surfaced + [s]
    requires forall f :: f in t.pending ==> f in u.pending || s == Failed(f)
    ensures AllReported(u)
  {
    forall i, e | 0 <= i < |u.conns| && 1 <= e <= |u.conns[i].made| && Gone(u.conns[i], e)
      ensures e in u.conns[i].unreported || Reported(u, u.conns[i].id, e)
    {
      if Reported(t, t.conns[i].id, e) {
        var f: Failure :| (f in t.pending || Told(t.surfaced, f)) && f.id == t.conns[i].id && f.epoch <= e
                          && f.generation == e % GENERATIONS;
        assert s == u.surfaced[|t.surfaced|];
        assert f in u.pending || Told(u.surfaced, f);
      }
    }
  }

  lemma UnreportedSurvives(t: Transport, s: Surfaced, u: Transport)
    requires UnreportedInv(t) && u.conns == t.conns && u.surfaced == t.surfaced + [s]
    requires forall f :: f in u.pending ==> f in t.pending
    requires s.Failed? ==> s.failure in t.pending
    ensures UnreportedInv(u)
  {
  }

  lemma OnceSurvivesTelling(t: Transport)
    requires OncePerFailure(t) && t.pending != []
    ensures OncePerFailure(TakeFailure(t))
  {
    var n := |t.pending| - 1;
    var f := t.pending[n];
    var u := TakeFailure(t);
    forall i | 0 <= i < |u.pending| ensures !Told(u.surfaced, u.pending[i]) {
      assert u.pending[i] == t.pending[i] && u.pending[i] != f;
    }
    forall i | 0 <= i < |t.surfaced| && t.surfaced[i].Failed? ensures t.surfaced[i] != Failed(f) {
      assert !Told(t.surfaced, t.pending[n]);
    }
  }

  /** A failure is told only when nothing at all is queued. */
  lemma {:induction false} TakeFailureKeepsInv(t: Transport)
    requires Inv(t) && t.pending != []
    requires forall i :: 0 <= i < |t.conns| ==> t.conns[i].taken >= |t.conns[i].accepted|
    ensures Inv(TakeFailure(t))
  {
    hide AllReported, ConnsInv, SurfacedInv, StreamsInv, UnreportedInv, OncePerFailure, PendingInv, FailureIsLast, Over, DrainedUpTo,
         ConnectionKey, Told;
    var u := TakeFailure(t);
    var f := t.pending[|t.pending| - 1];
    NewestIsOver(t);
    OnceSurvivesTelling(t);
    if !t.closed {
      forall g | g in t.pending ensures g in u.pending || Failed(f) == Failed(g) {
        var k :| 0 <= k < |t.pending| && t.pending[k] == g;
        assert k < |u.pending| ==> u.pending[k] == g;
      }
      ReportsSurviveTelling(t, Failed(f), u);
    }
    UnreportedSurvives(t, Failed(f), u);
    TellingKeeps(t, Failed(f), u);
  }

  /** The newest queued failure, once every queue is empty. */
  lemma NewestIsOver(t: Transport)
    requires PendingInv(t) && SurfacedInv(t) && t.pending != []
    requires forall i :: 0 <= i < |t.conns| ==> t.conns[i].taken >= |t.conns[i].accepted|
    ensures var f := t.pending[|t.pending| - 1];
            Over(t.conns, f) && DrainedUpTo(t.conns, f) && FailureIsLast(t.surfaced + [Failed(f)])
  {
    FailureToldLast(t.surfaced, t.pending[|t.pending| - 1]);
    hide FailureIsLast;
  }

  lemma FailureToldLast(surfaced: seq<Surfaced>, f: Failure)
    requires FailureIsLast(surfaced)
    ensures FailureIsLast(surfaced + [Failed(f)])
  {
  }

  // ---- connections come and go ----

  lemma AddKeepsOver(conns: seq<Conn>, c: Conn, f: Failure)
    requires Over(conns, f) && (forall i :: 0 <= i < |conns| ==> conns[i].id != c.id)
    ensures Over(conns + [c], f)
    ensures DrainedUpTo(conns, f) ==> DrainedUpTo(conns + [c], f)
  {
    var i :| 0 <= i < |conns| && conns[i].id == f.id;
    assert (conns + [c])[i].id == f.id;
  }

  lemma {:induction false} AddKeepsInv(t: Transport, id: ConnId)
    requires Inv(t) && id !in Ids(t)
    ensures Inv(AddConn(t, id))
  {
    var c := BackendConnections.Fresh(id);
    var u := AddConn(t, id);
    assert forall i :: 0 <= i < |t.conns| ==> t.conns[i].id in Ids(t);
    assert forall i :: 0 <= i < |t.conns| ==> u.conns[i] == t.conns[i];
    AddKeepsStreams(t, id);
    AddKeepsReports(t, id);
    hide Over, DrainedUpTo, AllReported, StreamsInv, BelongsTo, FailureIsLast;
    forall k | 0 <= k < |t.pending| ensures Over(u.conns, t.pending[k]) {
      AddKeepsOver(t.conns, c, t.pending[k]);
    }
    forall k | 0 <= k < |t.surfaced| && t.surfaced[k].Failed?
      ensures Over(u.conns, t.surfaced[k].failure) && DrainedUpTo(u.conns, t.surfaced[k].failure)
    {
      AddKeepsOver(t.conns, c, t.surfaced[k].failure);
    }
  }

  lemma {:induction false} AddKeepsStreams(t: Transport, id: ConnId)
    requires StreamsInv(t) && id !in Ids(t)
    ensures StreamsInv(AddConn(t, id))
  {
    var u := AddConn(t, id);
    forall k | 0 <= k < |t.streams| ensures u.streams[k].id in Ids(u) && StreamKnown(u.conns, u.streams[k]) {
      var i :| 0 <= i < |t.conns| && t.conns[i].id == t.streams[k].id;
      assert u.conns[i].id == t.streams[k].id;
      assert StreamKnown(t.conns, t.streams[k]);
    }
  }

  lemma AddKeepsReports(t: Transport, id: ConnId)
    requires AllReported(t) || t.closed
    ensures t.closed || AllReported(AddConn(t, id))
  {
    if !t.closed {
      var u := AddConn(t, id);
      forall i, e | 0 <= i < |u.conns| && 1 <= e <= |u.conns[i].made| && Gone(u.conns[i], e)
        ensures e in u.conns[i].unreported || Reported(u, u.conns[i].id, e)
      {
        if i < |t.conns| {
          assert Gone(t.conns[i], e);
          if Reported(t, t.conns[i].id, e) {
            ReportsGrow(t, u, t.conns[i].id, e);
          }
        }
      }
    }
  }

  lemma {:induction false} CloseKeepsInv(t: Transport)
    requires Inv(t)
    ensures Inv(Close(t))
  {
    if !t.closed {
      var u := Close(t);
      forall i | 0 <= i < |t.conns| ensures Took(t.conns[i], u.conns[i]) {
        assert ConnInv(t.conns[i]);
      }
      TookKeepsInv(t, u.conns);
      hide Over, DrainedUpTo, BelongsTo, AllReported, StreamKnown, ConnInv, Took;
      assert Ids(u) == Ids(t.(conns := u.conns));
      assert StreamsInv(u) by { hide Ids; }
    }
  }

  // ---- callbacks ----

  lemma {:induction false} OnEventsKeepsInv(t: Transport, ci: nat, from: Cnx, stream: StreamId, events: seq<Event>, fits: bool, now: nat)
    requires Inv(t) && ci < |t.conns| && t.conns[ci].state == Ready
    requires forall k :: 0 <= k < |events| ==> events[k].streamId == HandleOf(t.conns[ci], stream)
    ensures Inv(OnEvents(t, ci, from, events, fits, now))
  {
    assert ConnInv(t.conns[ci]);
    if fits {
      QueueAdvances(t.conns[ci], from, stream, events);
      hide *;
      DefOnEvents(t, ci, from, events, now);
      SetKeepsInv(t, ci, Queue(t.conns[ci], from, events));
    } else {
      AbortKeepsInv(t, ci, now);
      hide *;
      DefOnEvents(t, ci, from, events, now);
      BlamingKeepsInv(Abort(t, ci, now), t.conns[ci], from);
    }
  }

  lemma DefOnEvents(t: Transport, ci: nat, from: Cnx, events: seq<Event>, now: nat)
    requires ci < |t.conns|
    ensures OnEvents(t, ci, from, events, true, now) == SetConn(t, ci, Queue(t.conns[ci], from, events))
    ensures OnEvents(t, ci, from, events, false, now) == Blaming(Abort(t, ci, now), t.conns[ci], from)
  {
  }

  /** The record of who ended what is no part of what the invariant says. */
  lemma {:induction false} BlamingKeepsInv(t: Transport, c: Conn, from: Cnx)
    requires Inv(t)
    ensures Inv(Blaming(t, c, from))
  {
    var u := Blaming(t, c, from);
    if !t.closed {
      SameReports(t, u);
    }
    assert Ids(u) == Ids(t);
    hide ConnInv, AllReported, Over, DrainedUpTo, StreamKnown, Ids, BelongsTo, FailureIsLast;
  }

  lemma {:induction false} AbortKeepsInv(t: Transport, ci: nat, now: nat)
    requires Inv(t) && ci < |t.conns| && t.conns[ci].state == Ready
    ensures Inv(Abort(t, ci, now))
  {
    var c := t.conns[ci].(cnx := None);
    assert ConnInv(t.conns[ci]);
    assert Advances(t.conns[ci], c);
    SetKeepsInv(t, ci, c);
    FailKeepsInv(SetConn(t, ci, c), ci, now);
    hide Inv, Fail;
  }

  lemma {:induction false} HookCloseKeepsInv(t: Transport, ci: nat, from: Cnx, now: nat)
    requires Inv(t) && ci < |t.conns|
    ensures Inv(DispatchClose(t, ci, from, now))
  {
    var c := t.conns[ci].(cnx := None);
    assert ConnInv(t.conns[ci]) && Advances(t.conns[ci], c);
    SetKeepsInv(t, ci, c);
    var u := SetConn(t, ci, c);
    if c.state == Ready {
      FailKeepsInv(u, ci, now);
    } else {
      assert Advances(c, MarkFailed(c, now)) by { hide Delay; }
      SetKeepsInv(u, ci, MarkFailed(c, now));
    }
    UnindexKeepsInv(HookClose(t, ci, now), ci, from);
    BlamingKeepsInv(Unindex(HookClose(t, ci, now), ci, from), t.conns[ci], from);
    hide Inv, HookClose, Unindex;
  }

  lemma {:induction false} UnindexKeepsInv(t: Transport, ci: nat, from: Cnx)
    requires Inv(t) && ci < |t.conns|
    ensures Inv(Unindex(t, ci, from))
  {
    var d := t.conns[ci].(live := t.conns[ci].live - {from});
    assert ConnInv(t.conns[ci]) && Advances(t.conns[ci], d);
    SetKeepsInv(t, ci, d);
  }

  lemma {:induction false} DataKeepsInv(t: Transport, ci: nat, from: Cnx, stream: StreamId, data: seq<Byte>, isFin: bool, fits: bool, now: nat)
    requires Inv(t) && ci < |t.conns|
    ensures Inv(HookStreamData(t, ci, from, stream, data, isFin, fits, now))
  {
    hide Inv, OnEvents;
    if t.conns[ci].state == Ready && (data != [] || isFin) {
      var events := Chunks(HandleOf(t.conns[ci], stream), data, isFin, Data);
      ChunksAreTheData(HandleOf(t.conns[ci], stream), data, isFin, Data);
      OnEventsKeepsInv(t, ci, from, stream, events, fits, now);
    }
  }

  lemma {:induction false} ControlKeepsInv(t: Transport, ci: nat, from: Cnx, stream: StreamId, kind: RecvKind, fits: bool, now: nat)
    requires Inv(t) && ci < |t.conns|
    ensures Inv(HookStreamControl(t, ci, from, stream, kind, fits, now))
  {
    hide Inv, OnEvents;
    if t.conns[ci].state == Ready {
      OnEventsKeepsInv(t, ci, from, stream, [Event(HandleOf(t.conns[ci], stream), [], true, kind)], fits, now);
    }
  }

  // ---- sending ----

  lemma {:induction false} SendKeepsInv(t: Transport, h: Word, w: WriteOutcome, now: nat)
    requires Inv(t)
    ensures Inv(SendExisting(t, h, w, now).0)
  {
    ConnByIdFinds(t.conns, HandleConnId(h));
    var found := ConnById(t.conns, HandleConnId(h));
    if found.Some? && t.conns[found.value].state == Ready {
      FailKeepsInv(t, found.value, now);
    }
    hide Inv, Fail;
  }

  /** A stream opened on a ready connection has a number of its generation nobody used. */
  lemma {:induction false} OpenedKeepsInv(t: Transport, ci: nat, w: WriteOutcome, h: Word)
    requires Inv(t) && ci < |t.conns| && t.conns[ci].nextStream < STREAM_IDS
    requires SendOn(t.conns[ci], None, w).1 == Ok(h)
    ensures Inv(OpenedOn(t, ci, w, h))
  {
    hide AllReported, StreamsInv, Over, DrainedUpTo, MakeHandle;
    var c := t.conns[ci];
    assert ConnInv(c);
    SendAdvances(c, None, w);
    SetKeepsInv(t, ci, SendOn(c, None, w).0);
    var u := SetConn(t, ci, SendOn(c, None, w).0);
    AddStreamKeepsInv(t, ci, w, h);
    var v := OpenedOn(t, ci, w, h);
    assert v == u.(next := v.next, streams := v.streams);
    if !u.closed {
      SameReports(u, v);
    }
  }

  lemma SameReports(t: Transport, u: Transport)
    requires AllReported(t) && u.conns == t.conns && u.pending == t.pending && u.surfaced == t.surfaced
    ensures AllReported(u)
  {
    forall i, e | 0 <= i < |u.conns| && 1 <= e <= |u.conns[i].made| && Gone(u.conns[i], e)
      ensures e in u.conns[i].unreported || Reported(u, u.conns[i].id, e)
    {
      if Reported(t, t.conns[i].id, e) {
        ReportsGrow(t, u, t.conns[i].id, e);
      }
    }
  }

  lemma {:induction false} AddStreamKeepsInv(t: Transport, ci: nat, w: WriteOutcome, h: Word)
    requires ConnsInv(t) && StreamsInv(t) && ci < |t.conns| && t.conns[ci].nextStream < STREAM_IDS
    requires SendOn(t.conns[ci], None, w).1 == Ok(h)
    ensures StreamsInv(OpenedOn(t, ci, w, h))
  {
    var c := t.conns[ci];
    var v := OpenedOn(t, ci, w, h);
    var o := OpenedStream(c.id, |c.made|, c.nextStream, h, c.cnx);
    assert ConnInv(c);
    assert v.conns[ci].id == c.id;
    hide MakeHandle;
    forall k | 0 <= k < |t.streams| ensures v.streams[k].id in Ids(v) && StreamKnown(v.conns, v.streams[k]) {
      assert StreamKnown(t.conns, t.streams[k]);
      var i :| 0 <= i < |t.conns| && t.conns[i].id == t.streams[k].id;
      assert v.conns[i].id == t.streams[k].id;
    }
    assert StreamKnown(v.conns, o);
  }

  lemma {:induction false} FailedOnKeepsInv(t: Transport, ci: nat, w: WriteOutcome, now: nat)
    requires Inv(t) && ci < |t.conns| && t.conns[ci].nextStream < STREAM_IDS && t.conns[ci].state == Ready
    ensures Inv(FailedOn(t, ci, w, now))
  {
    var c := t.conns[ci];
    assert ConnInv(c);
    SendAdvances(c, None, w);
    SetKeepsInv(t, ci, SendOn(c, None, w).0);
    FailKeepsInv(SetConn(t, ci, SendOn(c, None, w).0), ci, now);
    hide Inv, Fail;
  }

  lemma {:induction false} TryKeepsInv(t: Transport, cursor: nat, offset: nat, w: seq<WriteOutcome>, now: nat, last: TransportError)
    requires Inv(t) && t.conns != [] && CanOpen(t)
    ensures Inv(TryFrom(t, cursor, offset, w, now, last).0)
    decreases |t.conns| - offset
  {
    hide Inv, Delay;
    if offset < |t.conns| {
      var ci := Turn(|t.conns|, cursor, offset);
      if t.conns[ci].state != Ready {
        TryKeepsInv(t, cursor, offset + 1, w, now, last);
      } else {
        match SendOn(t.conns[ci], None, OutcomeAt(w, ci)).1
        case Ok(h) => OpenedKeepsInv(t, ci, OutcomeAt(w, ci), h);
        case Err(e) =>
          FailedOnKeepsInv(t, ci, OutcomeAt(w, ci), now);
          TryKeepsInv(FailedOn(t, ci, OutcomeAt(w, ci), now), cursor, offset + 1, w, now, e);
      }
    }
  }

  lemma {:induction false} EnsureAllKeepsInv(t: Transport, now: nat, started: seq<bool>)
    requires Inv(t)
    ensures Inv(EnsureAll(t, now, started))
  {
    var u := EnsureAll(t, now, started);
    forall i | 0 <= i < |t.conns| ensures Advances(t.conns[i], u.conns[i]) {
      assert ConnInv(t.conns[i]);
      EnsureAdvances(t.conns[i], now, i < |started| && started[i]);
    }
    AdvanceKeepsInv(t, u.conns);
    hide Inv;
  }

  lemma SendNewKeepsInv(t: Transport, w: seq<WriteOutcome>, started: seq<bool>, now: nat)
    requires Inv(t) && CanOpen(t)
    ensures Inv(SendNew(t, w, started, now).0)
  {
    hide Inv, TryFrom, EnsureAll, Delay;
    if !t.closed && t.conns != [] {
      TryKeepsInv(t, t.next, 0, w, now, ConnectionFailed);
      EnsureAllKeepsInv(TryFrom(t, t.next, 0, w, now, ConnectionFailed).0, now, started);
    }
  }

  // ---- every step, every run ----

  lemma {:induction false} ReceiveKeepsInv(t: Transport)
    requires Inv(t)
    ensures Inv(Receive(t).0)
  {
    hide Inv;
    if !t.closed {
      FirstQueuedFinds(t.conns);
      match FirstQueued(t.conns)
      case Some(ci) => TakeFromKeepsInv(t, ci);
      case None =>
        if t.pending != [] {
          TakeFailureKeepsInv(t);
        }
    }
  }

  lemma {:induction false} ConnStepKeepsInv(t: Transport, step: Step)
    requires Inv(t) && Enabled(t, step) && (step.DoEnsure? || step.DoResolved? || step.DoConnected?)
    ensures Inv(Apply(t, step))
  {
    assert ConnInv(t.conns[step.ci]);
    match step
    case DoEnsure(ci, now, started) =>
      EnsureAdvances(t.conns[ci], now, started);
      SetKeepsInv(t, ci, EnsureConnecting(t.conns[ci], now, started));
    case DoResolved(ci, r, now) =>
      ResolvedAdvances(t.conns[ci], r, now);
      SetKeepsInv(t, ci, OnResolved(t.conns[ci], r, now));
    case DoConnected(ci, from) =>
      ConnectedAdvances(t.conns[ci], from);
      SetKeepsInv(t, ci, HookConnected(t.conns[ci], from));
  }

  lemma {:induction false} StepKeepsInv(t: Transport, step: Step)
    requires Inv(t) && Enabled(t, step)
    ensures Inv(Apply(t, step))
  {
    hide Inv;
    match step
    case DoCreate(id) => AddKeepsInv(t, id);
    case DoStreamData(ci, from, stream, data, isFin, fits, now) => DataKeepsInv(t, ci, from, stream, data, isFin, fits, now);
    case DoStreamControl(ci, from, stream, kind, fits, now) => ControlKeepsInv(t, ci, from, stream, kind, fits, now);
    case DoClose(ci, from, now) => HookCloseKeepsInv(t, ci, from, now);
    case DoSend(h, w, now) => SendKeepsInv(t, h, w, now);
    case DoOpen(ws, starts, now) => SendNewKeepsInv(t, ws, starts, now);
    case DoReceive => ReceiveKeepsInv(t);
    case DoShutdown => CloseKeepsInv(t);
    case _ => ConnStepKeepsInv(t, step);
  }

  lemma {:induction false} RunKeepsInv(t: Transport, steps: seq<Step>)
    requires Inv(t) && CanRun(t, steps)
    ensures Inv(Run(t, steps))
    decreases |steps|
  {
    hide Inv, Apply, Enabled;
    if steps != [] {
      StepKeepsInv(t, steps[0]);
      RunKeepsInv(Apply(t, steps[0]), steps[1..]);
    }
  }
}
