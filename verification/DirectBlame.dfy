/** Which QUIC connection's callback ends a generation. The code ends whatever generation is current;
    here is exactly when that is the caller's own. */
module DirectBlame {
  import opened Options
  import opened RealmQuota
  import opened Words
  import opened StreamHandles
  import opened SlotChains
  import ArenaModel
  import opened BackendConnections
  import opened DirectModel
  import DirectSafety
  import opened DirectEffects
  import opened DirectTheorems

  /** The caller is the QUIC connection whose connected event began the generation it ended. */
  ghost predicate BlamesItsOwn(conns: seq<Conn>, b: Blame) {
    forall i :: 0 <= i < |conns| && conns[i].id == b.failure.id ==>
      1 <= b.failure.epoch <= |conns[i].made| && conns[i].made[b.failure.epoch - 1] == b.caller
  }

  ghost predicate AllBlameTheirOwn(t: Transport) {
    forall k :: 0 <= k < |t.blamed| ==> BlamesItsOwn(t.conns, t.blamed[k])
  }

  /** A close, or a data or control event that does not fit, reaches a ready connection from another
      QUIC connection than the one that was connected last. */
  predicate Misblames(t: Transport, step: Step)
    requires Enabled(t, step)
  {
    Ends(t, step) && !Current(t.conns[step.ci], step.from)
  }

  ghost predicate NeverMisblames(t: Transport, steps: seq<Step>)
    requires CanRun(t, steps)
    decreases |steps|
  {
    steps == [] || (!Misblames(t, steps[0]) && NeverMisblames(Apply(t, steps[0]), steps[1..]))
  }

  /** What was blamed is over, and not on the record as ended without notice. */
  ghost predicate BlameInv(t: Transport) {
    forall k :: 0 <= k < |t.blamed| ==> Settled(t.conns, t.blamed[k].failure)
  }

  ghost predicate Settled(conns: seq<Conn>, f: Failure) {
    && DirectSafety.Over(conns, f)
    && forall i :: 0 <= i < |conns| && conns[i].id == f.id ==> f.epoch !in conns[i].unreported
  }

  // ---- one step ----

  /** Generations stay over, and what a generation was connected by never changes. */
  ghost predicate Later(c: Conn, d: Conn) {
    && d.id == c.id && c.made <= d.made
    && (d.state == Ready ==> c.state == Ready || |d.made| > |c.made|)
    && forall e :: e in d.unreported && e !in c.unreported ==> e == |c.made| && c.state == Ready
  }

  lemma StepIsLater(t: Transport, step: Step, i: nat)
    requires Enabled(t, step) && AllEffects(t, step) && i < |t.conns|
    ensures Later(t.conns[i], Apply(t, step).conns[i])
  {
    assert Effect(t, step, i, t.conns[i], Apply(t, step).conns[i]);
    hide Apply, Delay, OpensAtMostOne;
  }

  ghost predicate AllLater(a: seq<Conn>, b: seq<Conn>) {
    |a| <= |b| && forall i :: 0 <= i < |a| ==> Later(a[i], b[i])
  }

  /** No connection of `b` that `a` has not got is called `id`. */
  ghost predicate NoNew(a: seq<Conn>, b: seq<Conn>, id: ConnId) {
    forall i :: |a| <= i < |b| ==> b[i].id != id
  }

  lemma SettledStays(a: seq<Conn>, b: seq<Conn>, f: Failure)
    requires AllLater(a, b) && NoNew(a, b, f.id) && Settled(a, f)
    ensures Settled(b, f)
  {
    var j :| 0 <= j < |a| && a[j].id == f.id;
    assert Later(a[j], b[j]);
    forall i | 0 <= i < |b| && b[i].id == f.id
      ensures Gone(b[i], f.epoch) && f.epoch <= |b[i].made| && f.epoch !in b[i].unreported
    {
      assert Later(a[i], b[i]);
    }
  }

  lemma OwnBlameStays(a: seq<Conn>, b: seq<Conn>, blame: Blame)
    requires AllLater(a, b) && NoNew(a, b, blame.failure.id) && Settled(a, blame.failure)
    ensures BlamesItsOwn(b, blame) <==> BlamesItsOwn(a, blame)
  {
    forall i | 0 <= i < |a| && a[i].id == blame.failure.id
      ensures 1 <= blame.failure.epoch <= |a[i].made| && b[i].made[blame.failure.epoch - 1] == a[i].made[blame.failure.epoch - 1]
      ensures b[i].id == a[i].id
    {
      assert Later(a[i], b[i]);
    }
    if BlamesItsOwn(b, blame) {
      forall i | 0 <= i < |a| && a[i].id == blame.failure.id
        ensures 1 <= blame.failure.epoch <= |a[i].made| && a[i].made[blame.failure.epoch - 1] == blame.caller
      {
        assert b[i].id == blame.failure.id;
      }
    }
  }

  /** A ready connection backs off; the blame goes to `from`. */
  lemma FreshBlame(a: seq<Conn>, b: seq<Conn>, ci: nat, from: Cnx)
    requires ci < |a| == |b| && ConnInv(a[ci]) && a[ci].state == Ready && (forall e :: e in a[ci].unreported ==> Gone(a[ci], e))
    requires forall i :: 0 <= i < |a| ==> b[i].id == a[i].id && (i != ci ==> a[i].id != a[ci].id)
    requires b[ci].state == Backoff && b[ci].made == a[ci].made && b[ci].unreported == a[ci].unreported
    ensures Settled(b, FailureOf(a[ci]))
    ensures BlamesItsOwn(b, Blame(FailureOf(a[ci]), from)) <==> Current(a[ci], from)
  {
    assert b[ci].id == a[ci].id;
  }

  /** What the safety invariant says of a ready connection. */
  lemma ReadyFacts(t: Transport, ci: nat)
    requires DirectSafety.Inv(t) && ci < |t.conns|
    ensures ConnInv(t.conns[ci]) && forall e :: e in t.conns[ci].unreported ==> Gone(t.conns[ci], e)
    ensures forall i :: 0 <= i < |t.conns| && i != ci ==> t.conns[i].id != t.conns[ci].id
  {
    hide ConnInv, BelongsTo, DirectSafety.AllReported, DirectSafety.SurfacedInv, DirectSafety.StreamsInv, DirectSafety.OncePerFailure;
  }

  /** The blame of the generation that a callback has just ended. */
  lemma {:induction false} NewBlame(t: Transport, step: Step)
    requires DirectSafety.Inv(t) && Enabled(t, step) && AllEffects(t, step) && Ends(t, step)
    ensures step.ci < |t.conns|
    ensures var b := Blame(FailureOf(t.conns[step.ci]), step.from);
            && Settled(Apply(t, step).conns, b.failure)
            && (BlamesItsOwn(Apply(t, step).conns, b) <==> Current(t.conns[step.ci], step.from))
  {
    hide Apply, Effect, DirectSafety.Inv, ConnInv, OpensAtMostOne, Enabled, Settled, BlamesItsOwn, Current, Gone, AllEffects;
    EndedNow(t, step);
    ReadyFacts(t, step.ci);
    var u := Apply(t, step);
    forall i | 0 <= i < |t.conns| ensures u.conns[i].id == t.conns[i].id {
      StepIsLater(t, step, i);
    }
    FreshBlame(t.conns, u.conns, step.ci, step.from);
  }

  /** Whatever ended it, the connection has let its QUIC connection go and backs off. */
  lemma EndedNow(t: Transport, step: Step)
    requires Enabled(t, step) && Ends(t, step)
    ensures step.ci < |t.conns| == |Apply(t, step).conns| && t.conns[step.ci].state == Ready
    ensures var (c, d) := (t.conns[step.ci], Apply(t, step).conns[step.ci]);
            d.state == Backoff && d.cnx.None? && d.made == c.made && d.unreported == c.unreported && d.id == c.id
  {
    hide Delay, KeyQueued, ArenaModel.Chunks, MakeHandle;
  }

  lemma {:induction false} OldBlamesStay(t: Transport, step: Step)
    requires BlameInv(t) && Enabled(t, step) && AllEffects(t, step)
    ensures var u := Apply(t, step);
            forall k :: 0 <= k < |t.blamed| ==>
              Settled(u.conns, t.blamed[k].failure) && (BlamesItsOwn(u.conns, t.blamed[k]) <==> BlamesItsOwn(t.conns, t.blamed[k]))
  {
    hide Apply, Effect, Ends, OpensAtMostOne, Settled, Later, Enabled, BlamesItsOwn;
    var u := Apply(t, step);
    forall i | 0 <= i < |t.conns| ensures Later(t.conns[i], u.conns[i]) {
      StepIsLater(t, step, i);
    }
    forall k | 0 <= k < |t.blamed|
      ensures Settled(u.conns, t.blamed[k].failure) && (BlamesItsOwn(u.conns, t.blamed[k]) <==> BlamesItsOwn(t.conns, t.blamed[k]))
    {
      NotCreated(t, step, t.blamed[k].failure);
      SettledStays(t.conns, u.conns, t.blamed[k].failure);
      OwnBlameStays(t.conns, u.conns, t.blamed[k]);
    }
  }

  lemma {:induction false} StepBlames(t: Transport, step: Step)
    requires DirectSafety.Inv(t) && BlameInv(t) && Enabled(t, step)
    ensures BlameInv(Apply(t, step))
    ensures AllBlameTheirOwn(Apply(t, step)) <==> AllBlameTheirOwn(t) && !Misblames(t, step)
  {
    hide Apply, Effect, DirectSafety.Inv, OpensAtMostOne, Settled, Enabled, BlamesItsOwn, Current;
    StepEffects(t, step);
    var u := Apply(t, step);
    OldBlamesStay(t, step);
    if Ends(t, step) {
      NewBlame(t, step);
      assert u.blamed[|t.blamed|] == Blame(FailureOf(t.conns[step.ci]), step.from);
    }
    OldAndNewBlames(t, u);
  }

  lemma NotCreated(t: Transport, step: Step, f: Failure)
    requires Enabled(t, step) && AllEffects(t, step) && Settled(t.conns, f)
    ensures NoNew(t.conns, Apply(t, step).conns, f.id)
  {
    var j :| 0 <= j < |t.conns| && t.conns[j].id == f.id;
    assert t.conns[j].id in Ids(t);
    hide Apply, Effect, Ends, OpensAtMostOne;
  }

  /** Old entries of the record keep their verdict, so the new ones decide. */
  lemma OldAndNewBlames(t: Transport, u: Transport)
    requires t.blamed <= u.blamed
    requires forall k :: 0 <= k < |t.blamed| ==> (BlamesItsOwn(u.conns, t.blamed[k]) <==> BlamesItsOwn(t.conns, t.blamed[k]))
    ensures AllBlameTheirOwn(u) <==> AllBlameTheirOwn(t) && forall k :: |t.blamed| <= k < |u.blamed| ==> BlamesItsOwn(u.conns, u.blamed[k])
  {
    hide BlamesItsOwn;
    if AllBlameTheirOwn(u) {
      forall k | 0 <= k < |t.blamed| ensures BlamesItsOwn(t.conns, t.blamed[k]) {
        assert u.blamed[k] == t.blamed[k];
      }
    }
  }

  // ---- every run ----

  lemma {:induction false} RunBlames(t: Transport, steps: seq<Step>)
    requires DirectSafety.Inv(t) && BlameInv(t) && CanRun(t, steps)
    ensures BlameInv(Run(t, steps))
    ensures AllBlameTheirOwn(Run(t, steps)) <==> AllBlameTheirOwn(t) && NeverMisblames(t, steps)
    decreases |steps|
  {
    hide DirectSafety.Inv, Apply, Enabled, Misblames, AllBlameTheirOwn, BlameInv;
    if steps != [] {
      DirectSafety.StepKeepsInv(t, steps[0]);
      StepBlames(t, steps[0]);
      RunBlames(Apply(t, steps[0]), steps[1..]);
    }
  }

  /** Over every run: each generation that a callback ended was ended by its own QUIC connection if and
      only if no close and no refused data or control event of another one reached a ready connection. */
  lemma BlameIsExact(steps: seq<Step>)
    requires CanRun(Initial(), steps)
    ensures AllBlameTheirOwn(Run(Initial(), steps)) <==> NeverMisblames(Initial(), steps)
  {
    InitialInv();
    RunBlames(Initial(), steps);
  }

  /** The record is of failures that are signalled: up to 65536 connected events, whatever a callback
      ended is queued as a failure or was told. */
  lemma {:induction false} BlamedIsNoticed(steps: seq<Step>, k: nat)
    requires CanRun(Initial(), steps)
    requires var t := Run(Initial(), steps);
             k < |t.blamed| && !t.closed && forall i :: 0 <= i < |t.conns| ==> |t.conns[i].made| <= GENERATIONS
    ensures var t := Run(Initial(), steps); Noticed(t, t.blamed[k].failure)
  {
    InitialInv();
    RunBlames(Initial(), steps);
    ReachableInv(steps);
    var t := Run(Initial(), steps);
    var f := t.blamed[k].failure;
    assert Settled(t.conns, f);
    var i :| 0 <= i < |t.conns| && t.conns[i].id == f.id;
    assert f == DirectSafety.FailureAt(t.conns[i].id, f.epoch);
    hide Run, CanRun, DirectSafety.Inv, Noticed;
    GoneIsAccountedFor(t, i, f.epoch);
  }

  // ---- queued events alone do not tell ----

  /** Connection 7 comes up and the close of connection 6 fails it. Nothing was queued at all, so every
      event is attributed; the blame is not. */
  lemma {:induction false} LateCloseAloneFailsTheSuccessor()
    ensures var run := ReconnectRun() + [DoConnected(0, 7), DoClose(0, 6, 300_000)];
            && CanRun(Initial(), run) && NeverMisattributes(Initial(), run) && !NeverMisblames(Initial(), run)
            && var t := Run(Initial(), run);
            && Failure(0, 2, 2) in t.pending && Blame(Failure(0, 2, 2), 6) in t.blamed
            && |t.conns| == 1 && t.conns[0].made == [6, 7] && t.conns[0].live == {7} && t.conns[0].state == Backoff
  {
    var t2 := BlamedWrongly();
    LateEndsWith(t2);
    hide *;
    ReconnectReaches();
    var tail := [DoConnected(0, 7), DoClose(0, 6, 300_000)];
    LateCloseTail(tail, t2);
    RunConcat(Initial(), ReconnectRun(), tail);
    AttributionIsExact(ReconnectRun() + tail);
    BlameIsExact(ReconnectRun() + tail);
  }

  /** Generation 2, begun on 7, failed by the close of 6. */
  function BlamedWrongly(): Transport {
    Reconnected().(conns := [Conn(0, 2, Backoff, None, 1, 400_000, 0, false, [6, 7], {7}, 0, {}, [], 0)],
                   pending := [Failure(0, 1, 1), Failure(0, 2, 2)], blamed := [Blame(Failure(0, 2, 2), 6)])
  }

  lemma {:induction false} LateCloseTail(tail: seq<Step>, t2: Transport)
    requires tail == [DoConnected(0, 7), DoClose(0, 6, 300_000)] && t2 == BlamedWrongly()
    ensures CanRun(Reconnected(), tail) && Run(Reconnected(), tail) == t2
  {
    var t1 := Reconnected().(conns := [Conn(0, 2, Ready, Some(7), 0, 0, 0, false, [6, 7], {6, 7}, 0, {}, [], 0)]);
    hide Apply, Enabled, ReconnectRun, Reconnected;
    LateConnected(t1);
    CloseOfSix(t1, t2);
    RunNothing(t2);
    RunStep(t1, tail[1], []);
    RunStep(Reconnected(), tail[0], [tail[1]]);
    assert tail == [tail[0]] + [tail[1]];
  }

  /** What that end says: the blame is wrong, and no event is. */
  lemma LateEndsWith(t2: Transport)
    requires t2 == BlamedWrongly()
    ensures !AllBlameTheirOwn(t2) && AllAttributed(t2)
    ensures Failure(0, 2, 2) in t2.pending && Blame(Failure(0, 2, 2), 6) in t2.blamed
    ensures |t2.conns| == 1 && t2.conns[0].made == [6, 7] && t2.conns[0].live == {7} && t2.conns[0].state == Backoff
  {
    assert t2.pending[1] == Failure(0, 2, 2) && t2.blamed[0] == Blame(Failure(0, 2, 2), 6);
    assert !BlamesItsOwn(t2.conns, t2.blamed[0]) by { assert t2.conns[0].made[1] == 7; }
  }

  lemma CloseOfSix(t1: Transport, t2: Transport)
    requires t1 == Reconnected().(conns := [Conn(0, 2, Ready, Some(7), 0, 0, 0, false, [6, 7], {6, 7}, 0, {}, [], 0)])
    requires t2 == BlamedWrongly()
    ensures Enabled(t1, DoClose(0, 6, 300_000)) && Apply(t1, DoClose(0, 6, 300_000)) == t2
  {
    BackoffDoubles(1);
    assert Delay(1) == 100_000;
    hide Delay;
    KeysAreDistinct(0, 1, 0, 2);
    assert !KeyQueued(t1.pending, Failure(0, 2, 2).Key());
    assert {6, 7} - {6} == {7};
    assert [] + [Blame(Failure(0, 2, 2), 6)] == [Blame(Failure(0, 2, 2), 6)];
  }
}
