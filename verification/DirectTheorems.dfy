/** Read off the invariant: what the Worker may rely on over any run of a direct transport, and
    where the code falls short of it. */
module DirectTheorems {
  import opened Options
  import opened RealmQuota
  import opened Words
  import opened StreamHandles
  import opened SlotChains
  import ArenaModel
  import opened BackendConnections
  import opened DirectModel
  import opened DirectSafety
  import opened DirectEffects

  lemma InitialInv()
    ensures Inv(Initial())
  {
  }

  lemma ReachableInv(steps: seq<Step>)
    requires CanRun(Initial(), steps)
    ensures Inv(Run(Initial(), steps))
  {
    InitialInv();
    RunKeepsInv(Initial(), steps);
  }

  // ---- failure is the last word ----

  lemma SameGenerationFarApart(a: nat, b: nat)
    requires a < b && a % GENERATIONS == b % GENERATIONS
    ensures b >= a + GENERATIONS
  {
  }

  /** Once receive has surfaced a failure, an event it hands out later can carry a handle that the
      failure's selector matches only if the endpoint was connected at least 65536 more times. */
  lemma {:induction false} FailureIsTheLastWord(steps: seq<Step>, i: nat, j: nat)
    requires CanRun(Initial(), steps)
    requires var told := Run(Initial(), steps).surfaced;
             i < j < |told| && told[i].Failed? && told[j].Delivered?
    ensures var told := Run(Initial(), steps).surfaced;
            var (f, r) := (told[i].failure, told[j].received);
            && r.event.streamId < WORD
            && (FailureSelector(f.Key()).Matches(r.event.streamId) ==> told[j].id == f.id && r.epoch >= f.epoch + GENERATIONS)
  {
    var t := Run(Initial(), steps);
    ReachableInv(steps);
    hide Run, CanRun;
    var (f, r) := (t.surfaced[i].failure, t.surfaced[j].received);
    assert BelongsTo(r, t.surfaced[j].id) && Over(t.conns, f);
    SelectorIsExact(f.id, f.generation, r.event.streamId);
    hide HandleConnId, HandleGeneration, FailureSelector;
    if FailureSelector(f.Key()).Matches(r.event.streamId) {
      SameGenerationFarApart(f.epoch, r.epoch);
    }
  }

  /** No failure is surfaced twice, and two failures with the same selector are at least 65536
      connected events apart. */
  lemma FailureIsToldOnce(steps: seq<Step>, i: nat, j: nat)
    requires CanRun(Initial(), steps)
    requires var told := Run(Initial(), steps).surfaced;
             i < j < |told| && told[i].Failed? && told[j].Failed?
    ensures var told := Run(Initial(), steps).surfaced;
            var (f, g) := (told[i].failure, told[j].failure);
            && f != g
            && (f.Key() == g.Key() ==> f.id == g.id && (f.epoch >= g.epoch + GENERATIONS || g.epoch >= f.epoch + GENERATIONS))
  {
    var t := Run(Initial(), steps);
    ReachableInv(steps);
    hide Run, CanRun;
    var (f, g) := (t.surfaced[i].failure, t.surfaced[j].failure);
    assert Over(t.conns, f) && Over(t.conns, g);
    KeysAreDistinct(f.id, f.generation, g.id, g.generation);
    if f.Key() == g.Key() {
      if f.epoch < g.epoch {
        SameGenerationFarApart(f.epoch, g.epoch);
      } else if g.epoch < f.epoch {
        SameGenerationFarApart(g.epoch, f.epoch);
      }
    }
  }

  // ---- failures are exact ----

  /** The events that end a ready generation without a notice: a second connected event, and a
      late connection attempt that fails. */
  predicate Replaces(t: Transport, step: Step)
    requires Enabled(t, step)
  {
    match step
    case DoConnected(ci, _) => t.conns[ci].state == Ready
    case DoResolved(ci, r, _) => t.conns[ci].state == Ready && (r.ConnectFailed? || r.RegisterRefused?)
    case _ => false
  }

  ghost predicate NeverReplaces(t: Transport, steps: seq<Step>)
    requires CanRun(t, steps)
    decreases |steps|
  {
    steps == [] || (!Replaces(t, steps[0]) && NeverReplaces(Apply(t, steps[0]), steps[1..]))
  }

  /** Only a replacing event adds to the record, and what it adds is the generation it ended. */
  lemma {:induction false} RecordGrowsByReplacing(t: Transport, step: Step)
    requires Enabled(t, step)
    ensures |t.conns| <= |Apply(t, step).conns|
    ensures forall i :: 0 <= i < |t.conns| ==>
              Apply(t, step).conns[i].unreported
              == t.conns[i].unreported + if Replaces(t, step) && i == step.ci then {|t.conns[i].made|} else {}
    ensures forall i :: |t.conns| <= i < |Apply(t, step).conns| ==> Apply(t, step).conns[i].unreported == {}
  {
    StepEffects(t, step);
    hide Apply, Delay;
    var u := Apply(t, step);
    forall i | 0 <= i < |t.conns|
      ensures u.conns[i].unreported == t.conns[i].unreported + if Replaces(t, step) && i == step.ci then {|t.conns[i].made|} else {}
    {
      assert Effect(t, step, i, t.conns[i], u.conns[i]);
    }
  }

  /** No generation is on record as ended without notice. */
  ghost predicate NothingUnreported(t: Transport) {
    forall i :: 0 <= i < |t.conns| ==> t.conns[i].unreported == {}
  }

  lemma StepRecords(t: Transport, step: Step)
    requires Enabled(t, step)
    ensures NothingUnreported(Apply(t, step)) <==> NothingUnreported(t) && !Replaces(t, step)
  {
    RecordGrowsByReplacing(t, step);
    hide Apply;
    var u := Apply(t, step);
    if Replaces(t, step) {
      assert |t.conns[step.ci].made| in u.conns[step.ci].unreported;
    } else if NothingUnreported(u) {
      forall i | 0 <= i < |t.conns| ensures t.conns[i].unreported == {} {
        assert u.conns[i].unreported == {};
      }
    }
  }

  /** Over any run the record stays empty if and only if no replacing event is in it. */
  lemma {:induction false} RecordIsEmptyExactly(t: Transport, steps: seq<Step>)
    requires CanRun(t, steps)
    ensures NothingUnreported(Run(t, steps)) <==> NothingUnreported(t) && NeverReplaces(t, steps)
    decreases |steps|
  {
    hide Apply, Enabled, Replaces, NothingUnreported;
    if steps != [] {
      StepRecords(t, steps[0]);
      RecordIsEmptyExactly(Apply(t, steps[0]), steps[1..]);
    }
  }

  /** A failure that was ever signalled names a generation that is over. */
  lemma NoticedIsOver(t: Transport, f: Failure)
    requires PendingInv(t) && SurfacedInv(t) && (f in t.pending || Told(t.surfaced, f))
    ensures Over(t.conns, f)
  {
    hide Over, DrainedUpTo, BelongsTo, FailureIsLast;
    if f in t.pending {
      var k :| 0 <= k < |t.pending| && t.pending[k] == f;
    } else {
      var k :| 0 <= k < |t.surfaced| && t.surfaced[k] == Failed(f);
    }
  }

  ghost predicate Noticed(t: Transport, f: Failure) {
    f in t.pending || Told(t.surfaced, f)
  }

  lemma ReportedIsNoticed(t: Transport, id: ConnId, e: nat)
    requires PendingInv(t) && SurfacedInv(t) && 1 <= e <= GENERATIONS && Reported(t, id, e)
    ensures Noticed(t, FailureAt(id, e))
  {
    var f: Failure :| (f in t.pending || Told(t.surfaced, f)) && f.id == id && f.epoch <= e && f.generation == e % GENERATIONS;
    NoticedIsOver(t, f);
    assert 1 <= f.epoch && f.generation == f.epoch % GENERATIONS;
    if f.epoch < e {
      SameGenerationFarApart(f.epoch, e);
    }
    assert f == FailureAt(id, e);
  }

  lemma {:induction false} GoneIsAccountedFor(t: Transport, ci: nat, e: nat)
    requires DirectSafety.Inv(t) && !t.closed && ci < |t.conns| && 1 <= e <= |t.conns[ci].made| <= GENERATIONS
    ensures var c := t.conns[ci];
            && (Gone(c, e) <==> e in c.unreported || Noticed(t, FailureAt(c.id, e)))
            && !(e in c.unreported && Noticed(t, FailureAt(c.id, e)))
  {
    hide ConnsInv, OncePerFailure, StreamsInv, PendingInv, SurfacedInv, Reported, Told;
    var c := t.conns[ci];
    if Noticed(t, FailureAt(c.id, e)) {
      NoticedIsOver(t, FailureAt(c.id, e));
    }
    if Gone(c, e) && e !in c.unreported {
      ReportedIsNoticed(t, c.id, e);
    }
  }

  /** Up to 65536 connected events, every generation that is over is accounted for in exactly one
      way: its failure is queued or was told, or it is on the record as ended without notice. The record
      is empty if and only if no step replaced a ready generation. */
  lemma FailuresAreExact(steps: seq<Step>, ci: nat, e: nat)
    requires CanRun(Initial(), steps)
    requires var t := Run(Initial(), steps);
             !t.closed && ci < |t.conns| && 1 <= e <= |t.conns[ci].made| <= GENERATIONS
    ensures var t := Run(Initial(), steps);
            var c := t.conns[ci];
            && (Gone(c, e) <==> e in c.unreported || Noticed(t, FailureAt(c.id, e)))
            && !(e in c.unreported && Noticed(t, FailureAt(c.id, e)))
            && (NothingUnreported(t) <==> NeverReplaces(Initial(), steps))
  {
    RecordIsEmptyExactly(Initial(), steps);
    ReachableInv(steps);
    GoneIsAccountedFor(Run(Initial(), steps), ci, e);
    hide *;
  }

  /** Failures are told of exactly what failed: a generation's failure is queued or was told if and
      only if the generation is over. */
  ghost predicate NoticesAreExact(t: Transport) {
    forall i, e :: 0 <= i < |t.conns| && 1 <= e <= |t.conns[i].made| ==>
      (Gone(t.conns[i], e) <==> Noticed(t, FailureAt(t.conns[i].id, e)))
  }

  /** That is so after a run if and only if no step of it replaced a ready generation: neither a second
      connected event nor a failing lookup came while one was ready. */
  lemma EveryEndIsNoticedExactly(steps: seq<Step>)
    requires CanRun(Initial(), steps)
    requires var t := Run(Initial(), steps); !t.closed && forall i :: 0 <= i < |t.conns| ==> |t.conns[i].made| <= GENERATIONS
    ensures NoticesAreExact(Run(Initial(), steps)) <==> NeverReplaces(Initial(), steps)
  {
    RecordIsEmptyExactly(Initial(), steps);
    ReachableInv(steps);
    hide Run, CanRun, NeverReplaces, Noticed, Gone;
    NoticesNeedAnEmptyRecord(Run(Initial(), steps));
  }

  lemma {:induction false} NoticesNeedAnEmptyRecord(t: Transport)
    requires DirectSafety.Inv(t) && !t.closed && forall i :: 0 <= i < |t.conns| ==> |t.conns[i].made| <= GENERATIONS
    ensures NoticesAreExact(t) <==> NothingUnreported(t)
  {
    forall i, e | 0 <= i < |t.conns| && e in t.conns[i].unreported ensures 1 <= e <= |t.conns[i].made| {
      assert UnreportedInv(t);
    }
    hide DirectSafety.Inv, Gone, Noticed;
    forall i, e | 0 <= i < |t.conns| && 1 <= e <= |t.conns[i].made|
      ensures var c := t.conns[i];
              && (Gone(c, e) <==> e in c.unreported || Noticed(t, FailureAt(c.id, e)))
              && !(e in c.unreported && Noticed(t, FailureAt(c.id, e)))
    {
      GoneIsAccountedFor(t, i, e);
    }
    if !NothingUnreported(t) {
      var i :| 0 <= i < |t.conns| && t.conns[i].unreported != {};
      var e :| e in t.conns[i].unreported;
      assert Gone(t.conns[i], e) && !Noticed(t, FailureAt(t.conns[i].id, e));
    }
  }

  // ---- stream handles ----

  /** Two streams the gateway opened on one transport share a handle only 65536 connected events of
      one endpoint apart, although every connection numbers its streams from zero; and none of them
      looks as if the backend had opened it. */
  lemma OpenedHandlesAreDistinct(steps: seq<Step>, k: nat, l: nat)
    requires CanRun(Initial(), steps)
    requires k < l < |Run(Initial(), steps).streams|
    ensures var (a, b) := (Run(Initial(), steps).streams[k], Run(Initial(), steps).streams[l]);
            && !IsPeerInitiated(a.handle) && !IsPeerInitiated(b.handle)
            && (a.handle == b.handle ==>
                  a.id == b.id && (a.epoch >= b.epoch + GENERATIONS || b.epoch >= a.epoch + GENERATIONS))
  {
    hide Run, CanRun, MakeHandle, IsPeerInitiated, DirectSafety.Inv;
    ReachableInv(steps);
    var t := Run(Initial(), steps);
    KnownStream(t, k);
    KnownStream(t, l);
    StreamsDiffer(t, k, l);
    var (a, b) := (t.streams[k], t.streams[l]);
    DistinctFieldsDistinctHandles(a.id, a.epoch % GENERATIONS, a.stream, b.id, b.epoch % GENERATIONS, b.stream);
    if a.handle == b.handle {
      if a.epoch < b.epoch {
        SameGenerationFarApart(a.epoch, b.epoch);
      } else if b.epoch < a.epoch {
        SameGenerationFarApart(b.epoch, a.epoch);
      }
    }
  }

  lemma StreamsDiffer(t: Transport, k: nat, l: nat)
    requires DirectSafety.Inv(t) && k < l < |t.streams|
    ensures var (a, b) := (t.streams[k], t.streams[l]); a.id == b.id && a.epoch == b.epoch ==> a.stream != b.stream
  {
    hide ConnsInv, PendingInv, SurfacedInv, UnreportedInv, AllReported, StreamKnown;
  }

  /** What the invariant says of one opened stream. */
  lemma KnownStream(t: Transport, k: nat)
    requires DirectSafety.Inv(t) && k < |t.streams|
    ensures var o := t.streams[k];
            o.handle == MakeHandle(o.id, o.epoch % GENERATIONS, o.stream) && !IsPeerInitiated(o.handle)
  {
    var o := t.streams[k];
    assert StreamKnown(t.conns, o);
    InitiatorSurvivesPacking(o.id, o.epoch % GENERATIONS, o.stream);
    hide MakeHandle, IsPeerInitiated;
  }

  // ---- opening a stream ----

  /** A connection that can take a new stream now. */
  predicate Willing(t: Transport, w: seq<WriteOutcome>, i: nat) {
    i < |t.conns| && t.conns[i].state == Ready && t.conns[i].cnx.Some? && OutcomeAt(w, i).Written?
  }

  /** After trying and refusing: the generation is signalled and the connection backs off. */
  ghost predicate Refused(t: Transport, u: Transport, w: seq<WriteOutcome>, now: nat, i: nat)
    requires i < |t.conns| == |u.conns|
  {
    t.conns[i].state == Ready ==> u.conns[i].state == Backoff && u.conns[i].retryAt > now
  }

  /** The connections tried from `offset` on, in order: the first willing one, at `stop`, gets the
      stream, the ready ones before it are failed, and those not ready are left alone. */
  ghost predicate Tried(t: Transport, u: Transport, r: Result<Word, TransportError>, cursor: nat, offset: nat, stop: nat,
                        w: seq<WriteOutcome>, now: nat) {
    var n := |t.conns|;
    && n > 0 && |u.conns| == n && offset <= stop <= n && (r.Ok? <==> stop < n)
    && (forall k :: offset <= k < stop ==>
          !Willing(t, w, Turn(n, cursor, k)) && Refused(t, u, w, now, Turn(n, cursor, k)))
    && (forall i :: 0 <= i < n && t.conns[i].state != Ready ==> u.conns[i] == t.conns[i])
    && (r.Ok? ==> GotStream(t, u, r.value, Turn(n, cursor, stop), w))
  }

  /** Connection `ci` was willing, its next stream is the one handed out, and the cursor is past it. */
  ghost predicate GotStream(t: Transport, u: Transport, h: Word, ci: nat, w: seq<WriteOutcome>) {
    && ci < |t.conns| == |u.conns| && Willing(t, w, ci) && t.conns[ci].nextStream < STREAM_IDS
    && u.next == (ci + 1) % |t.conns| && h == HandleOf(t.conns[ci], t.conns[ci].nextStream)
    && u.conns[ci] == t.conns[ci].(nextStream := t.conns[ci].nextStream + 4)
  }

  lemma SkipStep(t: Transport, u: Transport, r: Result<Word, TransportError>, cursor: nat, offset: nat, stop: nat,
                 w: seq<WriteOutcome>, now: nat)
    requires offset < |t.conns| && t.conns[Turn(|t.conns|, cursor, offset)].state != Ready
    requires Tried(t, u, r, cursor, offset + 1, stop, w, now)
    ensures Tried(t, u, r, cursor, offset, stop, w, now)
  {
    hide GotStream, Turn;
  }

  lemma FailStep(t: Transport, v: Transport, u: Transport, r: Result<Word, TransportError>, cursor: nat, offset: nat, stop: nat,
                 w: seq<WriteOutcome>, now: nat)
    requires offset < |t.conns| && var ci := Turn(|t.conns|, cursor, offset);
             && !Willing(t, w, ci) && |v.conns| == |t.conns| && v.conns == t.conns[ci := v.conns[ci]]
             && v.conns[ci].state == Backoff && v.conns[ci].retryAt > now && t.conns[ci].state == Ready
    requires Tried(v, u, r, cursor, offset + 1, stop, w, now)
    ensures Tried(t, u, r, cursor, offset, stop, w, now)
  {
    hide Turn, HandleOf;
    var n := |t.conns|;
    forall k | offset <= k < stop ensures !Willing(t, w, Turn(n, cursor, k)) && Refused(t, u, w, now, Turn(n, cursor, k)) {
      assert k > offset ==> !Willing(v, w, Turn(n, cursor, k)) && Refused(v, u, w, now, Turn(n, cursor, k));
    }
    if r.Ok? {
      assert GotStream(v, u, r.value, Turn(n, cursor, stop), w);
    }
  }

  lemma FailedOnBacksOff(t: Transport, ci: nat, w: WriteOutcome, now: nat)
    requires ci < |t.conns| && t.conns[ci].nextStream < STREAM_IDS
    ensures var v := FailedOn(t, ci, w, now);
            && |v.conns| == |t.conns| && v.conns == t.conns[ci := v.conns[ci]]
            && v.conns[ci].state == Backoff && v.conns[ci].retryAt > now
  {
    hide MakeHandle, KeyQueued;
    BackoffDoubles(FailedOn(t, ci, w, now).conns[ci].failureCount);
  }

  lemma {:induction false} TryMeans(t: Transport, cursor: nat, offset: nat, w: seq<WriteOutcome>, now: nat, last: TransportError)
    returns (stop: nat)
    requires t.conns != [] && CanOpen(t) && offset <= |t.conns|
    ensures var (u, r) := TryFrom(t, cursor, offset, w, now, last); Tried(t, u, r, cursor, offset, stop, w, now)
    decreases |t.conns| - offset
  {
    hide MakeHandle, KeyQueued, Tried, FailedOn, Turn;
    var (u, r) := TryFrom(t, cursor, offset, w, now, last);
    if offset == |t.conns| {
      stop := offset;
      NothingTried(t, r, cursor, w, now);
    } else {
      var ci := Turn(|t.conns|, cursor, offset);
      if t.conns[ci].state != Ready {
        stop := TryMeans(t, cursor, offset + 1, w, now, last);
        SkipStep(t, u, r, cursor, offset, stop, w, now);
      } else {
        match SendOn(t.conns[ci], None, OutcomeAt(w, ci)).1
        case Ok(h) =>
          stop := offset;
          TriedFirst(t, u, h, cursor, offset, w, now);
        case Err(e) =>
          FailedOnBacksOff(t, ci, OutcomeAt(w, ci), now);
          var v := FailedOn(t, ci, OutcomeAt(w, ci), now);
          stop := TryMeans(v, cursor, offset + 1, w, now, e);
          FailStep(t, v, u, r, cursor, offset, stop, w, now);
      }
    }
  }

  lemma NothingTried(t: Transport, r: Result<Word, TransportError>, cursor: nat, w: seq<WriteOutcome>, now: nat)
    requires t.conns != [] && r.Err?
    ensures Tried(t, t, r, cursor, |t.conns|, |t.conns|, w, now)
  {
  }

  lemma TriedFirst(t: Transport, u: Transport, h: Word, cursor: nat, offset: nat, w: seq<WriteOutcome>, now: nat)
    requires offset < |t.conns| && var ci := Turn(|t.conns|, cursor, offset);
             && t.conns[ci].state == Ready && t.conns[ci].nextStream < STREAM_IDS
             && SendOn(t.conns[ci], None, OutcomeAt(w, ci)).1 == Ok(h) && u == OpenedOn(t, ci, OutcomeAt(w, ci), h)
    ensures Tried(t, u, Ok(h), cursor, offset, offset, w, now)
  {
    hide Turn, MakeHandle;
  }

  /** The places from the cursor on reach every connection. */
  lemma TurnsReachAll(n: nat, cursor: nat, i: nat) returns (k: nat)
    requires i < n
    ensures k < n && Turn(n, cursor, k) == i
  {
    var c := cursor % n;
    k := if i >= c then i - c else n - c + i;
    var q := cursor / n;
    assert cursor == q * n + c;
    if i >= c {
      DivModUnique(cursor + k, n, q, i);
    } else {
      assert cursor + k == (q + 1) * n + i;
      DivModUnique(cursor + k, n, q + 1, i);
    }
  }

  /** A new stream is opened if and only if some connection is willing; it goes to the first
      willing one from the cursor on, with that connection's next stream number, and the cursor
      moves past it. If none is willing, no connection is ready afterwards. */
  lemma {:induction false} NewStreamGoesToFirstWilling(t: Transport, w: seq<WriteOutcome>, started: seq<bool>, now: nat) returns (stop: nat)
    requires CanOpen(t) && !t.closed && t.conns != []
    ensures var (u, r) := SendNew(t, w, started, now);
            && |u.conns| == |t.conns|
            && (r.Ok? <==> exists i :: Willing(t, w, i))
            && (r.Ok? ==> Tried(t, u, r, t.next, 0, stop, w, now))
            && (r.Err? ==> forall i :: 0 <= i < |u.conns| ==> u.conns[i].state != Ready)
  {
    stop := TryMeans(t, t.next, 0, w, now, ConnectionFailed);
    var (u, r) := TryFrom(t, t.next, 0, w, now, ConnectionFailed);
    hide TryFrom, HandleOf, Turn;
    forall i | 0 <= i < |t.conns| && r.Err? ensures !Willing(t, w, i) && u.conns[i].state != Ready {
      var k := TurnsReachAll(|t.conns|, t.next, i);
      assert !Willing(t, w, Turn(|t.conns|, t.next, k)) && Refused(t, u, w, now, Turn(|t.conns|, t.next, k));
    }
    if r.Ok? {
      assert Willing(t, w, Turn(|t.conns|, t.next, stop));
    }
  }

  // ---- a DNS error strands its connection ----

  /** Connecting, with no lookup under way and no QUIC connection that could call back. */
  predicate Stranded(t: Transport, ci: nat) {
    ci < |t.conns| && t.conns[ci].state == Connecting && t.conns[ci].resolving == 0 && t.conns[ci].live == {}
  }

  /** The step is a DNS error in answer to the last lookup of a connection without QUIC connection. */
  predicate Strands(t: Transport, step: Step, ci: nat) {
    && step.DoResolved? && step.ci == ci && step.resolution.DnsFailed?
    && ci < |t.conns| && t.conns[ci].state == Connecting && t.conns[ci].resolving == 1 && t.conns[ci].live == {}
  }

  /** Such a DNS error is the one thing that strands a connection. */
  lemma {:induction false} DnsErrorStrands(t: Transport, step: Step, ci: nat)
    requires Enabled(t, step) && !Stranded(t, ci)
    ensures Stranded(Apply(t, step), ci) <==> Strands(t, step, ci)
  {
    StepEffects(t, step);
    hide Apply, Enabled, Delay;
    var u := Apply(t, step);
    if ci < |t.conns| {
      assert Effect(t, step, ci, t.conns[ci], u.conns[ci]);
      if step.DoResolved? && step.ci == ci && step.resolution.Established? {
        assert step.resolution.cnx in u.conns[ci].live;
      }
    }
  }

  /** Nothing short of shutting the transport down gets a stranded connection out of it, and it is
      never connected again. */
  lemma {:induction false} StepKeepsStranded(t: Transport, step: Step, ci: nat)
    requires Enabled(t, step) && Stranded(t, ci) && !step.DoShutdown?
    ensures Stranded(Apply(t, step), ci) && Apply(t, step).conns[ci].made == t.conns[ci].made
  {
    StepEffects(t, step);
    assert Effect(t, step, ci, t.conns[ci], Apply(t, step).conns[ci]);
    hide Apply, Delay, OpensAtMostOne;
  }

  ghost predicate EverStrands(t: Transport, steps: seq<Step>, ci: nat)
    requires CanRun(t, steps)
    decreases |steps|
  {
    steps != [] && (Strands(t, steps[0], ci) || EverStrands(Apply(t, steps[0]), steps[1..], ci))
  }

  /** A stranded connection is never ready again and no failure of it is ever signalled: whatever
      happens short of shutting the transport down, it stays as it is. */
  lemma {:induction false} StrandedForever(t: Transport, steps: seq<Step>, ci: nat)
    requires CanRun(t, steps) && Stranded(t, ci) && DoShutdown !in steps
    ensures Stranded(Run(t, steps), ci) && Run(t, steps).conns[ci].made == t.conns[ci].made
    decreases |steps|
  {
    hide Apply, Enabled, Stranded;
    if steps != [] {
      assert steps[0] in steps && forall s :: s in steps[1..] ==> s in steps;
      StepKeepsStranded(t, steps[0], ci);
      StrandedForever(Apply(t, steps[0]), steps[1..], ci);
    }
  }

  /** After any run of an open transport a connection is stranded if and only if some DNS error in
      that run stranded it. */
  lemma {:induction false} StrandedExactly(t: Transport, steps: seq<Step>, ci: nat)
    requires CanRun(t, steps) && !Stranded(t, ci) && DoShutdown !in steps
    ensures Stranded(Run(t, steps), ci) <==> EverStrands(t, steps, ci)
    decreases |steps|
  {
    hide Apply, Enabled, Stranded, Strands;
    if steps != [] {
      assert steps[0] in steps && forall s :: s in steps[1..] ==> s in steps;
      var u := Apply(t, steps[0]);
      DnsErrorStrands(t, steps[0], ci);
      if Stranded(u, ci) {
        StrandedForever(u, steps[1..], ci);
      } else {
        StrandedExactly(u, steps[1..], ci);
      }
    }
  }

  // ---- callbacks of an older QUIC connection ----

  /** The QUIC connection of the latest connected event. */
  predicate Current(c: Conn, from: Cnx) {
    c.made != [] && c.made[|c.made| - 1] == from
  }

  /** The step queues events that came from another QUIC connection than the current one. */
  predicate Misattributes(t: Transport, step: Step)
    requires Enabled(t, step)
  {
    match step
    case DoStreamData(ci, from, _, data, isFin, fits, _) =>
      t.conns[ci].state == Ready && (data != [] || isFin) && fits && !Current(t.conns[ci], from)
    case DoStreamControl(ci, from, _, _, fits, _) => t.conns[ci].state == Ready && fits && !Current(t.conns[ci], from)
    case _ => false
  }

  ghost predicate NeverMisattributes(t: Transport, steps: seq<Step>)
    requires CanRun(t, steps)
    decreases |steps|
  {
    steps == [] || (!Misattributes(t, steps[0]) && NeverMisattributes(Apply(t, steps[0]), steps[1..]))
  }

  /** Every queued event carries the generation of the QUIC connection that brought it. */
  ghost predicate Attributed(c: Conn) {
    forall k :: 0 <= k < |c.accepted| ==>
      1 <= c.accepted[k].epoch <= |c.made| && c.made[c.accepted[k].epoch - 1] == c.accepted[k].from
  }

  ghost predicate AllAttributed(t: Transport) {
    forall i :: 0 <= i < |t.conns| ==> Attributed(t.conns[i])
  }

  /** Nothing queued or connected between the two. */
  ghost predicate SameHistory(t: Transport, u: Transport) {
    |u.conns| == |t.conns| && forall i :: 0 <= i < |t.conns| ==>
      u.conns[i].made == t.conns[i].made && u.conns[i].accepted == t.conns[i].accepted
  }

  lemma OpenKeepsHistory(t: Transport, ws: seq<WriteOutcome>, starts: seq<bool>, now: nat)
    requires CanOpen(t)
    ensures SameHistory(t, SendNew(t, ws, starts, now).0)
  {
    hide Delay, TryFrom;
    if !t.closed && t.conns != [] {
      TryOnlyTouches(t, t.next, 0, ws, now, ConnectionFailed);
      var u := TryFrom(t, t.next, 0, ws, now, ConnectionFailed).0;
      forall i | 0 <= i < |t.conns| ensures u.conns[i].made == t.conns[i].made && u.conns[i].accepted == t.conns[i].accepted {
        assert Touched(t.conns[i], u.conns[i]);
      }
    }
  }

  lemma {:induction false} SendKeepsHistory(t: Transport, h: Word, w: WriteOutcome, now: nat)
    ensures SameHistory(t, SendExisting(t, h, w, now).0)
  {
    hide Delay, MakeHandle, HandleConnId, HandleGeneration, HandleStreamId, KeyQueued;
    ConnByIdFinds(t.conns, HandleConnId(h));
  }

  lemma CloseKeepsHistory(t: Transport, ci: nat, from: Cnx, now: nat)
    requires ci < |t.conns|
    ensures SameHistory(t, DispatchClose(t, ci, from, now))
  {
    hide Delay, KeyQueued;
  }

  lemma {:induction false} QuietStepKeepsHistory(t: Transport, step: Step)
    requires Enabled(t, step) && !step.DoCreate? && !step.DoConnected? && !step.DoStreamData? && !step.DoStreamControl?
    ensures SameHistory(t, Apply(t, step))
  {
    hide Delay, SendNew, TryFrom, SendExisting, DispatchClose, Unreported, ConnectionKey;
    match step
    case DoOpen(ws, starts, now) => OpenKeepsHistory(t, ws, starts, now);
    case DoSend(h, w, now) => SendKeepsHistory(t, h, w, now);
    case DoClose(ci, from, now) => CloseKeepsHistory(t, ci, from, now);
    case DoReceive => FirstQueuedFinds(t.conns);
    case _ =>
  }

  lemma QueueAttributes(c: Conn, from: Cnx, events: seq<ArenaModel.Event>)
    requires c.made != [] && events != []
    ensures Attributed(Queue(c, from, events)) <==> Attributed(c) && Current(c, from)
  {
    var d := Queue(c, from, events);
    assert forall k :: 0 <= k < |c.accepted| ==> d.accepted[k] == c.accepted[k];
    if Attributed(d) {
      assert d.accepted[|c.accepted|].from == from;
      forall k | 0 <= k < |c.accepted|
        ensures 1 <= c.accepted[k].epoch <= |c.made| && c.made[c.accepted[k].epoch - 1] == c.accepted[k].from
      {
        assert d.accepted[k] == c.accepted[k];
      }
    }
  }

  /** A single connection event against all connections. */
  lemma OneConnAttributed(t: Transport, ci: nat, c: Conn)
    requires ci < |t.conns|
    requires Attributed(c) ==> Attributed(t.conns[ci])
    ensures AllAttributed(SetConn(t, ci, c)) <==> AllAttributed(t) && Attributed(c)
  {
    hide Attributed;
    var u := SetConn(t, ci, c);
    if AllAttributed(u) {
      assert Attributed(u.conns[ci]);
      forall i | 0 <= i < |t.conns| ensures Attributed(t.conns[i]) {
        assert Attributed(u.conns[i]);
      }
    }
  }

  lemma HistoryDecides(t: Transport, u: Transport)
    requires SameHistory(t, u)
    ensures AllAttributed(u) <==> AllAttributed(t)
  {
    forall i | 0 <= i < |t.conns| ensures Attributed(u.conns[i]) <==> Attributed(t.conns[i]) {
      assert u.conns[i].made == t.conns[i].made && u.conns[i].accepted == t.conns[i].accepted;
    }
    hide Attributed;
  }

  lemma EventsAttribute(t: Transport, ci: nat, from: Cnx, events: seq<ArenaModel.Event>, fits: bool, now: nat)
    requires ci < |t.conns| && t.conns[ci].made != [] && events != []
    ensures AllAttributed(OnEvents(t, ci, from, events, fits, now)) <==>
              AllAttributed(t) && (fits ==> Current(t.conns[ci], from))
  {
    if fits {
      QueueAttributes(t.conns[ci], from, events);
      hide Attributed, Current;
      OneConnAttributed(t, ci, Queue(t.conns[ci], from, events));
    } else {
      hide KeyQueued, Delay;
      HistoryDecides(t, Abort(t, ci, now));
    }
  }

  lemma {:induction false} StepAttributes(t: Transport, step: Step)
    requires DirectSafety.Inv(t) && Enabled(t, step)
    ensures AllAttributed(Apply(t, step)) <==> AllAttributed(t) && !Misattributes(t, step)
  {
    match step
    case DoCreate(id) =>
      var u := Apply(t, step);
      assert forall i :: 0 <= i < |t.conns| ==> u.conns[i] == t.conns[i];
      assert Attributed(BackendConnections.Fresh(id));
      hide Attributed;
    case DoConnected(ci, from) =>
      ConnectedAttributes(t.conns[ci], from);
      hide Attributed;
      OneConnAttributed(t, ci, HookConnected(t.conns[ci], from));
    case DoStreamData(ci, from, stream, data, isFin, fits, now) =>
      assert ConnInv(t.conns[ci]);
      if t.conns[ci].state == Ready && (data != [] || isFin) {
        var events := ArenaModel.Chunks(HandleOf(t.conns[ci], stream), data, isFin, Data);
        ArenaModel.ChunksAreTheData(HandleOf(t.conns[ci], stream), data, isFin, Data);
        EventsAttribute(t, ci, from, events, fits, now);
      }
      hide AllAttributed, Current, OnEvents, ArenaModel.Chunks, DirectSafety.Inv;
    case DoStreamControl(ci, from, stream, kind, fits, now) =>
      assert ConnInv(t.conns[ci]);
      if t.conns[ci].state == Ready {
        EventsAttribute(t, ci, from, [ArenaModel.Event(HandleOf(t.conns[ci], stream), [], true, kind)], fits, now);
      }
      hide AllAttributed, Current, OnEvents, DirectSafety.Inv;
    case _ =>
      QuietStepKeepsHistory(t, step);
      HistoryDecides(t, Apply(t, step));
      hide AllAttributed, Apply, Enabled, DirectSafety.Inv;
  }

  lemma ConnectedAttributes(c: Conn, from: Cnx)
    requires ConnInv(c)
    ensures Attributed(HookConnected(c, from)) <==> Attributed(c)
  {
    var d := HookConnected(c, from);
    assert forall k :: 0 <= k < |c.accepted| ==> d.made[c.accepted[k].epoch - 1] == c.made[c.accepted[k].epoch - 1];
    if Attributed(d) {
      assert forall k :: 0 <= k < |c.accepted| ==> d.made[d.accepted[k].epoch - 1] == d.accepted[k].from;
    }
  }

  lemma {:induction false} RunAttributes(t: Transport, steps: seq<Step>)
    requires DirectSafety.Inv(t) && CanRun(t, steps)
    ensures AllAttributed(Run(t, steps)) <==> AllAttributed(t) && NeverMisattributes(t, steps)
    decreases |steps|
  {
    hide DirectSafety.Inv, Apply, Enabled, Misattributes, AllAttributed;
    if steps != [] {
      StepKeepsInv(t, steps[0]);
      StepAttributes(t, steps[0]);
      RunAttributes(Apply(t, steps[0]), steps[1..]);
    }
  }

  /** Every event carries the generation of the QUIC connection that brought it if and only if no
      callback of an older QUIC connection queued anything while its successor was ready. */
  lemma AttributionIsExact(steps: seq<Step>)
    requires CanRun(Initial(), steps)
    ensures AllAttributed(Run(Initial(), steps)) <==> NeverMisattributes(Initial(), steps)
  {
    InitialInv();
    RunAttributes(Initial(), steps);
  }

  // ---- two runs that need their conditions ----

  /** Endpoint 0 is connected through QUIC connection 6; a new stream is refused, which fails the
      generation but leaves connection 6 alive; then a retry establishes connection 7. */
  function ReconnectRun(): seq<Step> {
    [DoCreate(0), DoEnsure(0, 0, true), DoResolved(0, Established(6), 0), DoConnected(0, 6),
     DoOpen([Rejected], [], 0), DoEnsure(0, 200_000, true), DoResolved(0, Established(7), 200_000)]
  }

  /** The connection after that run: connecting on 7, with 6 still in the index. */
  function Reconnecting(): Conn {
    Conn(0, 1, Connecting, Some(7), 1, 100_000, 4, false, [6], {6, 7}, 0, {}, [], 0)
  }

  function Reconnected(): Transport {
    Initial().(conns := [Reconnecting()], pending := [Failure(0, 1, 1)])
  }

  lemma RunStep(t: Transport, step: Step, rest: seq<Step>)
    requires Enabled(t, step)
    ensures CanRun(t, [step] + rest) <==> CanRun(Apply(t, step), rest)
    ensures CanRun(Apply(t, step), rest) ==> Run(t, [step] + rest) == Run(Apply(t, step), rest)
  {
    assert ([step] + rest)[1..] == rest;
  }

  lemma {:induction false} RunConcat(t: Transport, a: seq<Step>, b: seq<Step>)
    requires CanRun(t, a) && CanRun(Run(t, a), b)
    ensures CanRun(t, a + b) && Run(t, a + b) == Run(Run(t, a), b)
    decreases |a|
  {
    hide Apply, Enabled;
    if a == [] {
      assert a + b == b;
    } else {
      assert (a + b)[1..] == a[1..] + b;
      RunConcat(Apply(t, a[0]), a[1..], b);
    }
  }

  function OneConn(c: Conn): Transport {
    Initial().(conns := [c])
  }

  lemma CreatedAndAsked(c: Conn, t2: Transport)
    requires c == BackendConnections.Fresh(0) && t2 == OneConn(c.(state := Connecting, held := true, resolving := 1))
    ensures Enabled(Initial(), DoCreate(0)) && Apply(Initial(), DoCreate(0)) == OneConn(c)
    ensures Enabled(OneConn(c), DoEnsure(0, 0, true)) && Apply(OneConn(c), DoEnsure(0, 0, true)) == t2
  {
    hide Delay;
  }

  lemma AnsweredAndConnected(c: Conn, t2: Transport, t3: Transport, t4: Transport)
    requires c == BackendConnections.Fresh(0) && t2 == OneConn(c.(state := Connecting, held := true, resolving := 1))
    requires t3 == OneConn(c.(state := Connecting, cnx := Some(6), live := {6}))
    requires t4 == OneConn(Conn(0, 1, Ready, Some(6), 0, 0, 0, false, [6], {6}, 0, {}, [], 0))
    ensures Enabled(t2, DoResolved(0, Established(6), 0)) && Apply(t2, DoResolved(0, Established(6), 0)) == t3
    ensures Enabled(t3, DoConnected(0, 6)) && Apply(t3, DoConnected(0, 6)) == t4
  {
    hide Delay;
    assert {} + {6} == {6} && [] + [6] == [6];
  }

  lemma FirstConnect()
    ensures var t4 := OneConn(Conn(0, 1, Ready, Some(6), 0, 0, 0, false, [6], {6}, 0, {}, [], 0));
            var steps := [DoCreate(0), DoEnsure(0, 0, true), DoResolved(0, Established(6), 0), DoConnected(0, 6)];
            CanRun(Initial(), steps) && Run(Initial(), steps) == t4
  {
    hide Apply, Enabled;
    var c := BackendConnections.Fresh(0);
    var t2 := OneConn(c.(state := Connecting, held := true, resolving := 1));
    var t3 := OneConn(c.(state := Connecting, cnx := Some(6), live := {6}));
    var t4 := OneConn(Conn(0, 1, Ready, Some(6), 0, 0, 0, false, [6], {6}, 0, {}, [], 0));
    var steps := [DoCreate(0), DoEnsure(0, 0, true), DoResolved(0, Established(6), 0), DoConnected(0, 6)];
    CreatedAndAsked(c, t2);
    AnsweredAndConnected(c, t2, t3, t4);
    RunStep(t3, steps[3], []);
    RunStep(t2, steps[2], [steps[3]]);
    RunStep(OneConn(c), steps[1], [steps[2], steps[3]]);
    RunStep(Initial(), steps[0], [steps[1], steps[2], steps[3]]);
    assert steps == [steps[0]] + [steps[1], steps[2], steps[3]];
  }

  lemma RefusedOpenStep(t4: Transport)
    requires CanOpen(t4)
    ensures Enabled(t4, DoOpen([Rejected], [], 0)) && Apply(t4, DoOpen([Rejected], [], 0)) == SendNew(t4, [Rejected], [], 0).0
  {
    hide SendNew;
  }

  lemma RetryAnswered(t5: Transport, t6: Transport)
    requires t5 == OneConn(Conn(0, 1, Backoff, Some(6), 1, 100_000, 4, false, [6], {6}, 0, {}, [], 0)).(pending := [Failure(0, 1, 1)])
    requires t6 == t5.(conns := [Conn(0, 1, Connecting, Some(6), 1, 100_000, 4, true, [6], {6}, 1, {}, [], 0)])
    ensures Enabled(t5, DoEnsure(0, 200_000, true)) && Apply(t5, DoEnsure(0, 200_000, true)) == t6
    ensures var step := DoResolved(0, Established(7), 200_000); Enabled(t6, step) && Apply(t6, step) == Reconnected()
  {
    hide Delay;
    assert {6} + {7} == {6, 7};
  }

  lemma {:induction false} SecondConnect()
    ensures var t4 := OneConn(Conn(0, 1, Ready, Some(6), 0, 0, 0, false, [6], {6}, 0, {}, [], 0));
            var steps := [DoOpen([Rejected], [], 0), DoEnsure(0, 200_000, true), DoResolved(0, Established(7), 200_000)];
            CanRun(t4, steps) && Run(t4, steps) == Reconnected()
  {
    hide Apply, Enabled;
    var t4 := OneConn(Conn(0, 1, Ready, Some(6), 0, 0, 0, false, [6], {6}, 0, {}, [], 0));
    var t5 := OneConn(Conn(0, 1, Backoff, Some(6), 1, 100_000, 4, false, [6], {6}, 0, {}, [], 0)).(pending := [Failure(0, 1, 1)]);
    var t6 := t5.(conns := [Conn(0, 1, Connecting, Some(6), 1, 100_000, 4, true, [6], {6}, 1, {}, [], 0)]);
    var steps := [DoOpen([Rejected], [], 0), DoEnsure(0, 200_000, true), DoResolved(0, Established(7), 200_000)];
    RefusedOpen(t4, t5);
    RefusedOpenStep(t4);
    RetryAnswered(t5, t6);
    RunStep(t6, steps[2], []);
    RunStep(t5, steps[1], [steps[2]]);
    RunStep(t4, steps[0], [steps[1], steps[2]]);
    assert steps == [steps[0]] + [steps[1], steps[2]];
  }

  lemma {:induction false} ReconnectReaches()
    ensures CanRun(Initial(), ReconnectRun()) && Run(Initial(), ReconnectRun()) == Reconnected()
  {
    FirstConnect();
    SecondConnect();
    hide *;
    var a := [DoCreate(0), DoEnsure(0, 0, true), DoResolved(0, Established(6), 0), DoConnected(0, 6)];
    var b := [DoOpen([Rejected], [], 0), DoEnsure(0, 200_000, true), DoResolved(0, Established(7), 200_000)];
    RunConcat(Initial(), a, b);
    ReconnectRunParts(a, b);
  }

  lemma ReconnectRunParts(a: seq<Step>, b: seq<Step>)
    requires a == [DoCreate(0), DoEnsure(0, 0, true), DoResolved(0, Established(6), 0), DoConnected(0, 6)]
    requires b == [DoOpen([Rejected], [], 0), DoEnsure(0, 200_000, true), DoResolved(0, Established(7), 200_000)]
    ensures ReconnectRun() == a + b
  {
  }

  lemma RefusedOpen(t4: Transport, t5: Transport)
    requires t4 == Initial().(conns := [Conn(0, 1, Ready, Some(6), 0, 0, 0, false, [6], {6}, 0, {}, [], 0)])
    requires t5 == Initial().(conns := [Conn(0, 1, Backoff, Some(6), 1, 100_000, 4, false, [6], {6}, 0, {}, [], 0)], pending := [Failure(0, 1, 1)])
    ensures CanOpen(t4) && SendNew(t4, [Rejected], [], 0).0 == t5
  {
    BackoffDoubles(1);
    assert Delay(1) == 100_000;
    hide Delay;
    var c := t4.conns[0];
    assert Turn(1, 0, 0) == 0;
    assert SendOn(c, None, OutcomeAt([Rejected], 0)).1 == Err(SendFailed);
    assert FailedOn(t4, 0, OutcomeAt([Rejected], 0), 0) == t5;
    assert TryFrom(t5, 0, 1, [Rejected], 0, SendFailed).0 == t5;
    assert EnsureAll(t5, 0, []) == t5;
  }

  /** Connection 7 comes up; then data of connection 6 is queued under the new generation, and the
      close of connection 6 fails it, although connection 7 is alive. */
  lemma LateCallbacksHitTheSuccessor()
    ensures var run := ReconnectRun() + [DoConnected(0, 7), DoStreamData(0, 6, 0, [1], false, true, 300_000), DoClose(0, 6, 300_000)];
            && CanRun(Initial(), run)
            && var t := Run(Initial(), run);
            && !AllAttributed(t) && Failure(0, 2, 2) in t.pending
            && |t.conns| == 1 && t.conns[0].made == [6, 7] && t.conns[0].live == {7} && t.conns[0].state == Backoff
  {
    var tail := [DoConnected(0, 7), DoStreamData(0, 6, 0, [1], false, true, 300_000), DoClose(0, 6, 300_000)];
    LateTail(tail);
    ReconnectReaches();
    assert !Attributed(LateEnd().conns[0]) by { assert LateEnd().conns[0].accepted[0].from == 6; }
    assert Failure(0, 2, 2) == LateEnd().pending[1];
    hide Apply, Enabled, ReconnectRun, Attributed, MakeHandle;
    RunConcat(Initial(), ReconnectRun(), tail);
  }

  function LateEvent(): Received {
    Received(2, 6, ArenaModel.Event(MakeHandle(0, 2, 0), [1], false, Data))
  }

  function LateEnd(): Transport {
    Initial().(conns := [Conn(0, 2, Backoff, None, 1, 400_000, 0, false, [6, 7], {7}, 0, {}, [LateEvent()], 0)],
               pending := [Failure(0, 1, 1), Failure(0, 2, 2)], blamed := [Blame(Failure(0, 2, 2), 6)])
  }

  lemma {:induction false} LateTail(tail: seq<Step>)
    requires tail == [DoConnected(0, 7), DoStreamData(0, 6, 0, [1], false, true, 300_000), DoClose(0, 6, 300_000)]
    ensures CanRun(Reconnected(), tail) && Run(Reconnected(), tail) == LateEnd()
  {
    var t1 := Reconnected().(conns := [Conn(0, 2, Ready, Some(7), 0, 0, 0, false, [6, 7], {6, 7}, 0, {}, [], 0)]);
    var t2 := Reconnected().(conns := [Conn(0, 2, Ready, Some(7), 0, 0, 0, false, [6, 7], {6, 7}, 0, {}, [LateEvent()], 0)]);
    hide Apply, Enabled, MakeHandle, LateEnd;
    LateConnected(t1);
    LateData(t1, t2);
    LateClose(t2);
    RunNothing(LateEnd());
    assert tail[2..][1..] == [] && tail[1..][1..] == tail[2..];
    assert CanRun(t2, tail[2..]) && Run(t2, tail[2..]) == LateEnd();
    assert CanRun(t1, tail[1..]) && Run(t1, tail[1..]) == LateEnd();
  }

  lemma RunNothing(t: Transport)
    ensures CanRun(t, []) && Run(t, []) == t
  {
  }

  lemma LateConnected(t1: Transport)
    requires t1 == Reconnected().(conns := [Conn(0, 2, Ready, Some(7), 0, 0, 0, false, [6, 7], {6, 7}, 0, {}, [], 0)])
    ensures Enabled(Reconnected(), DoConnected(0, 7)) && Apply(Reconnected(), DoConnected(0, 7)) == t1
  {
    assert [6] + [7] == [6, 7];
  }

  lemma LateData(t1: Transport, t2: Transport)
    requires t1 == Reconnected().(conns := [Conn(0, 2, Ready, Some(7), 0, 0, 0, false, [6, 7], {6, 7}, 0, {}, [], 0)])
    requires t2 == Reconnected().(conns := [Conn(0, 2, Ready, Some(7), 0, 0, 0, false, [6, 7], {6, 7}, 0, {}, [LateEvent()], 0)])
    ensures var step := DoStreamData(0, 6, 0, [1], false, true, 300_000); Enabled(t1, step) && Apply(t1, step) == t2
  {
    hide MakeHandle;
    var h := HandleOf(t1.conns[0], 0);
    assert ArenaModel.Chunks(h, [1], false, Data) == [ArenaModel.Event(h, [1], false, Data)];
    assert Tagged(t1.conns[0], 6, [ArenaModel.Event(h, [1], false, Data)]) == [LateEvent()];
    assert [] + [LateEvent()] == [LateEvent()];
  }

  lemma LateClose(t2: Transport)
    requires t2 == Reconnected().(conns := [Conn(0, 2, Ready, Some(7), 0, 0, 0, false, [6, 7], {6, 7}, 0, {}, [LateEvent()], 0)])
    ensures Enabled(t2, DoClose(0, 6, 300_000)) && Apply(t2, DoClose(0, 6, 300_000)) == LateEnd()
  {
    hide MakeHandle;
    BackoffDoubles(1);
    assert Delay(1) == 100_000;
    hide Delay;
    KeysAreDistinct(0, 1, 0, 2);
    assert !KeyQueued(t2.pending, Failure(0, 2, 2).Key());
    assert {6, 7} - {6} == {7};
  }

  /** Connection 6 closes while 7 is still in its handshake, so a third attempt is under way; when 7
      and then 8 come up, generation 2 is replaced while ready and nobody is told. */
  lemma ReplacedGenerationGoesUnreported()
    ensures var run := ReconnectRun() + [DoClose(0, 6, 300_000), DoEnsure(0, 900_000, true), DoResolved(0, Established(8), 900_000),
                                         DoConnected(0, 7), DoConnected(0, 8)];
            && CanRun(Initial(), run) && !NeverReplaces(Initial(), run)
            && var t := Run(Initial(), run);
            && !t.closed && |t.conns| == 1 && t.conns[0].made == [6, 7, 8] && Gone(t.conns[0], 2)
            && 2 in t.conns[0].unreported && !Noticed(t, FailureAt(0, 2))
  {
    var tail := [DoClose(0, 6, 300_000), DoEnsure(0, 900_000, true), DoResolved(0, Established(8), 900_000),
                 DoConnected(0, 7), DoConnected(0, 8)];
    ReplacedTail(tail);
    ReconnectReaches();
    hide Apply, Enabled, ReconnectRun, Gone, Replaces;
    RunConcat(Initial(), ReconnectRun(), tail);
    var run := ReconnectRun() + tail;
    var t := Run(Initial(), run);
    RecordIsEmptyExactly(Initial(), run);
    assert t.conns[0].unreported != {};
    ReachableInv(run);
    assert FailureAt(t.conns[0].id, 2) !in t.pending && !Told(t.surfaced, FailureAt(t.conns[0].id, 2));
  }

  lemma ClosedWhileConnecting(a: Conn, t1: Transport)
    requires a == Conn(0, 1, Backoff, None, 2, 500_000, 4, false, [6], {7}, 0, {}, [], 0) && t1 == Reconnected().(conns := [a])
    ensures Enabled(Reconnected(), DoClose(0, 6, 300_000)) && Apply(Reconnected(), DoClose(0, 6, 300_000)) == t1
  {
    BackoffDoubles(1);
    assert Delay(1) == 100_000 && Delay(2) == 200_000;
    assert {6, 7} - {6} == {7};
  }

  lemma RetriedAgain(a: Conn, t1: Transport, t2: Transport, t3: Transport)
    requires a == Conn(0, 1, Backoff, None, 2, 500_000, 4, false, [6], {7}, 0, {}, [], 0) && t1 == Reconnected().(conns := [a])
    requires t2 == t1.(conns := [a.(state := Connecting, held := true, resolving := 1)])
    requires t3 == t1.(conns := [a.(state := Connecting, cnx := Some(8), live := {7, 8})])
    ensures Enabled(t1, DoEnsure(0, 900_000, true)) && Apply(t1, DoEnsure(0, 900_000, true)) == t2
    ensures Enabled(t2, DoResolved(0, Established(8), 900_000)) && Apply(t2, DoResolved(0, Established(8), 900_000)) == t3
  {
    hide Delay;
    assert {7} + {8} == {7, 8};
  }

  lemma TwoConnectedInARow(t3: Transport, t4: Transport, t5: Transport)
    requires t3 == Reconnected().(conns := [Conn(0, 1, Connecting, Some(8), 2, 500_000, 4, false, [6], {7, 8}, 0, {}, [], 0)])
    requires t4 == t3.(conns := [Conn(0, 2, Ready, Some(8), 0, 0, 0, false, [6, 7], {7, 8}, 0, {}, [], 0)])
    requires t5 == t3.(conns := [Conn(0, 3, Ready, Some(8), 0, 0, 0, false, [6, 7, 8], {7, 8}, 0, {2}, [], 0)])
    ensures Enabled(t3, DoConnected(0, 7)) && Apply(t3, DoConnected(0, 7)) == t4
    ensures Enabled(t4, DoConnected(0, 8)) && Apply(t4, DoConnected(0, 8)) == t5
  {
    assert [6] + [7] == [6, 7] && [6, 7] + [8] == [6, 7, 8] && {} + {2} == {2};
  }

  lemma ReplacedTail(tail: seq<Step>)
    requires tail == [DoClose(0, 6, 300_000), DoEnsure(0, 900_000, true), DoResolved(0, Established(8), 900_000),
                      DoConnected(0, 7), DoConnected(0, 8)]
    ensures CanRun(Reconnected(), tail)
    ensures var t := Run(Reconnected(), tail);
            && !t.closed && |t.conns| == 1 && t.conns[0].id == 0 && t.conns[0].made == [6, 7, 8]
            && Gone(t.conns[0], 2) && 2 in t.conns[0].unreported
  {
    hide Apply, Enabled, Delay;
    var a := Conn(0, 1, Backoff, None, 2, 500_000, 4, false, [6], {7}, 0, {}, [], 0);
    var t1 := Reconnected().(conns := [a]);
    var t2 := Reconnected().(conns := [a.(state := Connecting, held := true, resolving := 1)]);
    var t3 := Reconnected().(conns := [a.(state := Connecting, cnx := Some(8), live := {7, 8})]);
    var t4 := Reconnected().(conns := [Conn(0, 2, Ready, Some(8), 0, 0, 0, false, [6, 7], {7, 8}, 0, {}, [], 0)]);
    var t5 := Reconnected().(conns := [Conn(0, 3, Ready, Some(8), 0, 0, 0, false, [6, 7, 8], {7, 8}, 0, {2}, [], 0)]);
    ClosedWhileConnecting(a, t1);
    RetriedAgain(a, t1, t2, t3);
    TwoConnectedInARow(t3, t4, t5);
    RunNothing(t5);
    assert tail[5..] == [];
    assert tail[4..][1..] == tail[5..];
    assert tail[3..][1..] == tail[4..];
    assert tail[2..][1..] == tail[3..];
    assert tail[1..][1..] == tail[2..];
    assert CanRun(t4, tail[4..]) && Run(t4, tail[4..]) == t5;
    assert CanRun(t3, tail[3..]) && Run(t3, tail[3..]) == t5;
    assert CanRun(t2, tail[2..]) && Run(t2, tail[2..]) == t5;
    assert CanRun(t1, tail[1..]) && Run(t1, tail[1..]) == t5;
  }
}
