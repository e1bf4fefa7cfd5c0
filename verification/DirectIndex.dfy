/** The pool's connection index, seen from its direct transports: whose QUIC connections are in it, and
    what a transport that shuts down leaves behind. */
module DirectIndex {
  import opened Options
  import opened RealmQuota
  import opened Words
  import opened StreamHandles
  import opened SlotChains
  import opened ProbeTable
  import ArenaModel
  import opened BackendConnections
  import opened DirectModel
  import DirectSafety
  import opened DirectEffects
  import opened DirectTheorems
  import opened DirectOwnership
  import opened DirectWorker

  /** The hook table every direct connection registers with. */
  const DIRECT_HOOKS: nat := 1

  /** The QUIC connections that the connections of a transport hold. */
  function Handles(t: Transport): set<Cnx> {
    set i | 0 <= i < |t.conns| && t.conns[i].cnx.Some? :: t.conns[i].cnx.value
  }

  /** The index after a step: a new QUIC connection is registered under its endpoint, a close drops the
      one that closed, and a shutdown drops those in hand. */
  function IndexAfter(index: map<Key, Owner>, t: Transport, step: Step): map<Key, Owner> {
    match step
    case DoResolved(ci, r, _) =>
      if r.Established? && ci < |t.conns| && !t.closed then index[r.cnx := Owner(t.conns[ci].id, DIRECT_HOOKS)] else index
    case DoClose(_, from, _) => index - {from}
    case DoShutdown => if t.closed then index else index - Handles(t)
    case _ => index
  }

  function Entries(index: map<Key, Owner>, id: ConnId): set<Key> {
    set k | k in index && index[k] == Owner(id, DIRECT_HOOKS)
  }

  /** What is live for a connection is what the index has for it. */
  ghost predicate Owns(index: map<Key, Owner>, t: Transport) {
    forall i :: 0 <= i < |t.conns| ==> t.conns[i].live == Entries(index, t.conns[i].id)
  }

  /** QUIC hands out connections that are not in use, and the pool ids that are not. */
  predicate Unused(index: map<Key, Owner>, step: Step) {
    && (step.DoResolved? && step.resolution.Established? ==> step.resolution.cnx !in index)
    && (step.DoCreate? ==> Entries(index, step.id) == {})
  }

  ghost predicate AllIndexed(t: Transport) {
    forall i :: 0 <= i < |t.conns| ==> Indexed(t.conns[i])
  }

  // ---- one step ----

  /** One connection and its entries. */
  lemma EntriesFollow(index: map<Key, Owner>, t: Transport, step: Step, i: nat)
    requires Enabled(t, step) && AllEffects(t, step) && !t.closed && !step.DoShutdown? && Unused(index, step)
    requires DirectSafety.ConnsInv(t) && Owns(index, t) && i < |t.conns|
    ensures Apply(t, step).conns[i].live == Entries(IndexAfter(index, t, step), t.conns[i].id)
    ensures Apply(t, step).conns[i].id == t.conns[i].id
  {
    var (c, d) := (t.conns[i], Apply(t, step).conns[i]);
    assert Effect(t, step, i, c, d) && c.live == Entries(index, c.id);
    hide OpensAtMostOne, ConnInv, Delay, Ends;
    match step
    case DoResolved(ci, r, _) =>
      hide Apply;
      if r.Established? {
        assert ci != i ==> t.conns[ci].id != c.id;
        AddedEntry(index, r.cnx, t.conns[ci].id, c.id);
      }
    case DoClose(ci, from, _) =>
      hide Apply;
      assert from in t.conns[ci].live && t.conns[ci].live == Entries(index, t.conns[ci].id);
      assert ci != i ==> t.conns[ci].id != c.id;
      RemovedEntries(index, {from}, c.id);
    case _ =>
      hide Apply;
  }

  lemma AddedEntry(index: map<Key, Owner>, k: Key, id: ConnId, other: ConnId)
    requires k !in index
    ensures Entries(index[k := Owner(id, DIRECT_HOOKS)], other) == Entries(index, other) + if other == id then {k} else {}
  {
  }

  lemma RemovedEntries(index: map<Key, Owner>, gone: set<Key>, id: ConnId)
    ensures Entries(index - gone, id) == Entries(index, id) - gone
  {
  }

  /** The entries of a connection of somebody else stay. */
  lemma OthersEntries(index: map<Key, Owner>, t: Transport, step: Step, id: ConnId)
    requires Enabled(t, step) && Unused(index, step) && (t.closed || (Owns(index, t) && AllIndexed(t))) && id !in Ids(t)
    ensures Entries(IndexAfter(index, t, step), id) == Entries(index, id)
  {
    hide Apply, Delay;
    match step
    case DoResolved(ci, r, _) =>
      if r.Established? {
        assert t.conns[ci].id in Ids(t);
        AddedEntry(index, r.cnx, t.conns[ci].id, id);
      }
    case DoClose(ci, from, _) =>
      assert t.conns[ci].id in Ids(t);
      assert from in Entries(index, t.conns[ci].id);
      RemovedEntries(index, {from}, id);
    case DoShutdown =>
      if !t.closed {
        HandlesAreEntries(index, t, id);
        RemovedEntries(index, Handles(t), id);
      }
    case _ =>
  }

  lemma HandlesAreEntries(index: map<Key, Owner>, t: Transport, id: ConnId)
    requires Owns(index, t) && AllIndexed(t) && id !in Ids(t)
    ensures Entries(index, id) - Handles(t) == Entries(index, id)
  {
    forall k | k in Handles(t) ensures k !in Entries(index, id) {
      var i :| 0 <= i < |t.conns| && t.conns[i].cnx.Some? && t.conns[i].cnx.value == k;
      assert Indexed(t.conns[i]) && t.conns[i].id in Ids(t);
      assert k in Entries(index, t.conns[i].id);
    }
  }

  /** A transport that stays open goes on owning what is live. */
  lemma {:induction false} StepOwns(index: map<Key, Owner>, t: Transport, step: Step)
    requires Enabled(t, step) && !t.closed && !step.DoShutdown? && Unused(index, step) && DirectSafety.ConnsInv(t) && Owns(index, t)
    ensures Owns(IndexAfter(index, t, step), Apply(t, step))
  {
    StepEffects(t, step);
    var u := Apply(t, step);
    hide Apply, Enabled, Effect, OpensAtMostOne, Ends, DirectSafety.ConnsInv, Entries;
    forall i | 0 <= i < |u.conns| ensures u.conns[i].live == Entries(IndexAfter(index, t, step), u.conns[i].id) {
      if i < |t.conns| {
        EntriesFollow(index, t, step, i);
      }
    }
  }

  lemma {:induction false} StepIndexes(t: Transport, step: Step)
    requires Enabled(t, step) && AllIndexed(t)
    ensures AllIndexed(Apply(t, step))
  {
    StepEffects(t, step);
    var u := Apply(t, step);
    hide Apply, Enabled, Effect, OpensAtMostOne, Ends, Indexed;
    forall i | 0 <= i < |u.conns| ensures Indexed(u.conns[i]) {
      if i < |t.conns| {
        StepKeepsIndexed(t, step, i);
      } else {
        FreshIsIndexed(step.id);
      }
    }
  }

  // ---- what a shutdown leaves ----

  /** No entry of the index is for one of the transport's connections. */
  ghost predicate NothingLeft(index: map<Key, Owner>, t: Transport) {
    forall i :: 0 <= i < |t.conns| ==> Entries(index, t.conns[i].id) == {}
  }

  /** Every connection has at most the QUIC connection it holds. */
  ghost predicate OnlyCurrent(t: Transport) {
    forall i, k :: 0 <= i < |t.conns| && k in t.conns[i].live ==> t.conns[i].cnx == Some(k)
  }

  /** A shutdown clears the transport's entries if and only if no connection has an older QUIC connection
      that was given up without closing. */
  lemma LeftByShutdown(index: map<Key, Owner>, t: Transport)
    requires !t.closed && DirectSafety.ConnsInv(t) && Owns(index, t) && AllIndexed(t)
    ensures NothingLeft(IndexAfter(index, t, DoShutdown), t) <==> OnlyCurrent(t)
  {
    hide ConnInv;
    forall i | 0 <= i < |t.conns|
      ensures Entries(index - Handles(t), t.conns[i].id) == t.conns[i].live - Handles(t)
      ensures forall k :: k in t.conns[i].live && k in Handles(t) ==> t.conns[i].cnx == Some(k)
    {
      RemovedEntries(index, Handles(t), t.conns[i].id);
      forall k | k in t.conns[i].live && k in Handles(t) ensures t.conns[i].cnx == Some(k) {
        var j :| 0 <= j < |t.conns| && t.conns[j].cnx.Some? && t.conns[j].cnx.value == k;
        assert Indexed(t.conns[j]) && k in Entries(index, t.conns[j].id) && k in Entries(index, t.conns[i].id);
        assert t.conns[j].id == t.conns[i].id;
      }
    }
    if !OnlyCurrent(t) {
      var i, k :| 0 <= i < |t.conns| && k in t.conns[i].live && t.conns[i].cnx != Some(k);
      assert k in Entries(index - Handles(t), t.conns[i].id);
    }
    if OnlyCurrent(t) {
      forall i | 0 <= i < |t.conns| ensures Entries(index - Handles(t), t.conns[i].id) == {} {
        forall k | k in t.conns[i].live ensures k in Handles(t) {
          assert t.conns[i].cnx == Some(k);
        }
      }
    }
  }

  // ---- every run of a Worker ----

  /** A Worker and the index of its pool. */
  datatype PoolView = PoolView(worker: Worker, index: map<Key, Owner>)

  ghost predicate PoolEnabled(v: PoolView, s: WorkerStep) {
    && WorkerEnabled(v.worker, s)
    && (s.OnTransport? && s.step.DoResolved? && s.step.resolution.Established? ==> s.step.resolution.cnx !in v.index)
  }

  ghost function PoolApply(v: PoolView, s: WorkerStep): PoolView
    requires PoolEnabled(v, s)
  {
    PoolView(WorkerApply(v.worker, s),
             if s.OnTransport? then IndexAfter(v.index, v.worker.transports[s.ti], s.step) else v.index)
  }

  ghost predicate PoolCanRun(v: PoolView, steps: seq<WorkerStep>)
    decreases |steps|
  {
    steps == [] || (PoolEnabled(v, steps[0]) && PoolCanRun(PoolApply(v, steps[0]), steps[1..]))
  }

  ghost function PoolRun(v: PoolView, steps: seq<WorkerStep>): PoolView
    requires PoolCanRun(v, steps)
    decreases |steps|
  {
    if steps == [] then v else PoolRun(PoolApply(v, steps[0]), steps[1..])
  }

  /** Ids the pool has not handed out own nothing. */
  ghost predicate FutureOwnsNothing(index: map<Key, Owner>, next: nat) {
    forall k :: k in index ==> index[k].ctx < next
  }

  ghost predicate PoolInv(v: PoolView) {
    && WorkerInv(v.worker) && FutureOwnsNothing(v.index, v.worker.nextConnId)
    && forall ti :: 0 <= ti < |v.worker.transports| ==> TransportOwns(v.index, v.worker.transports[ti])
  }

  ghost predicate TransportOwns(index: map<Key, Owner>, t: Transport) {
    AllIndexed(t) && (t.closed || Owns(index, t))
  }

  /** What the Worker's invariant says of a transport's connections and their ids. */
  lemma WorkerFacts(w: Worker, ti: nat)
    requires WorkerInv(w) && ti < |w.transports|
    ensures DirectSafety.ConnsInv(w.transports[ti])
    ensures forall tj, id :: 0 <= tj < |w.transports| && tj != ti && id in Ids(w.transports[tj]) ==> id !in Ids(w.transports[ti])
    ensures forall id :: id in Ids(w.transports[ti]) ==> id < w.nextConnId
  {
    assert TransportInv(w.arena, w.transports[ti]);
    hide ArenaModel.Inv, ConnsInStep, Ids, QueuesOwned, DirectSafety.ConnsInv;
  }

  lemma OwnStep(v: PoolView, s: WorkerStep)
    requires PoolInv(v) && PoolEnabled(v, s) && s.OnTransport?
    ensures TransportOwns(IndexAfter(v.index, v.worker.transports[s.ti], s.step), Apply(v.worker.transports[s.ti], s.step))
    ensures Unused(v.index, s.step)
  {
    var (t, step) := (v.worker.transports[s.ti], s.step);
    assert TransportOwns(v.index, t);
    WorkerFacts(v.worker, s.ti);
    if step.DoCreate? {
      assert Entries(v.index, step.id) == {};
    }
    hide WorkerInv, Owns, AllIndexed, Enabled, Entries, ArenaFollows, DirectSafety.ConnsInv;
    StepIndexes(t, step);
    if t.closed || step.DoShutdown? {
      StaysClosed(t, step);
    } else {
      StepOwns(v.index, t, step);
    }
    hide Apply;
  }

  lemma StaysClosed(t: Transport, step: Step)
    requires Enabled(t, step) && (t.closed || step.DoShutdown?)
    ensures Apply(t, step).closed
  {
    StepEffects(t, step);
    hide Apply;
  }

  lemma OtherStep(v: PoolView, s: WorkerStep, tj: nat)
    requires PoolInv(v) && PoolEnabled(v, s) && s.OnTransport? && tj < |v.worker.transports| && tj != s.ti && Unused(v.index, s.step)
    ensures TransportOwns(IndexAfter(v.index, v.worker.transports[s.ti], s.step), v.worker.transports[tj])
  {
    var (t, u, step) := (v.worker.transports[s.ti], v.worker.transports[tj], s.step);
    assert TransportOwns(v.index, t) && TransportOwns(v.index, u);
    WorkerFacts(v.worker, s.ti);
    hide WorkerInv, AllIndexed, Enabled, Entries, ArenaFollows, DirectSafety.ConnsInv, IndexAfter, Unused;
    if !u.closed {
      forall i | 0 <= i < |u.conns| ensures u.conns[i].live == Entries(IndexAfter(v.index, t, step), u.conns[i].id) {
        assert u.conns[i].id in Ids(u);
        OthersEntries(v.index, t, step, u.conns[i].id);
      }
    }
  }

  lemma {:induction false} PoolStepKeepsInv(v: PoolView, s: WorkerStep)
    requires PoolInv(v) && PoolEnabled(v, s)
    ensures PoolInv(PoolApply(v, s))
  {
    hide WorkerInv, TransportOwns, FutureOwnsNothing, IndexAfter, Apply, Enabled, ArenaFollows, Unused, Ids;
    WorkerStepKeepsInv(v.worker, s);
    match s
    case NewTransport => NewOwnsNothing(v.index);
    case GiveBack(_) =>
    case OnTransport(ti, step, _, _) =>
      OwnStep(v, s);
      FutureStays(v, s);
      var u := PoolApply(v, s);
      forall tj | 0 <= tj < |u.worker.transports| ensures TransportOwns(u.index, u.worker.transports[tj]) {
        if tj != ti {
          OtherStep(v, s, tj);
        }
      }
  }

  lemma NewOwnsNothing(index: map<Key, Owner>)
    ensures TransportOwns(index, DirectModel.Initial())
  {
  }

  lemma FutureStays(v: PoolView, s: WorkerStep)
    requires PoolInv(v) && PoolEnabled(v, s) && s.OnTransport?
    ensures FutureOwnsNothing(PoolApply(v, s).index, PoolApply(v, s).worker.nextConnId)
  {
    hide WorkerInv, TransportOwns, ArenaFollows, Apply, FutureOwnsNothing, IndexAfter, Ids, DirectSafety.ConnsInv;
    WorkerFacts(v.worker, s.ti);
    FutureAfter(v.index, v.worker.transports[s.ti], s.step, v.worker.nextConnId);
    FutureGrows(IndexAfter(v.index, v.worker.transports[s.ti], s.step), v.worker.nextConnId);
  }

  lemma FutureAfter(index: map<Key, Owner>, t: Transport, step: Step, next: nat)
    requires FutureOwnsNothing(index, next) && forall id :: id in Ids(t) ==> id < next
    ensures FutureOwnsNothing(IndexAfter(index, t, step), next)
  {
    forall i | 0 <= i < |t.conns| ensures t.conns[i].id < next {
      assert t.conns[i].id in Ids(t);
    }
  }

  lemma FutureGrows(index: map<Key, Owner>, next: nat)
    requires FutureOwnsNothing(index, next)
    ensures FutureOwnsNothing(index, next + 1)
  {
  }

  lemma {:induction false} PoolRunKeepsInv(v: PoolView, steps: seq<WorkerStep>)
    requires PoolInv(v) && PoolCanRun(v, steps)
    ensures PoolInv(PoolRun(v, steps))
    decreases |steps|
  {
    hide PoolInv, PoolEnabled, PoolApply;
    if steps != [] {
      PoolStepKeepsInv(v, steps[0]);
      PoolRunKeepsInv(PoolApply(v, steps[0]), steps[1..]);
    }
  }

  /** In every reachable state, the QUIC connections whose callbacks reach a connection of an open
      transport are exactly those the pool's index has for it. */
  lemma LiveIsIndexed(w: Worker, steps: seq<WorkerStep>, ti: nat, i: nat)
    requires Starts(w) && PoolCanRun(PoolView(w, map[]), steps)
    requires var v := PoolRun(PoolView(w, map[]), steps).worker;
             ti < |v.transports| && !v.transports[ti].closed && i < |v.transports[ti].conns|
    ensures var v := PoolRun(PoolView(w, map[]), steps);
            var c := v.worker.transports[ti].conns[i];
            c.live == Entries(v.index, c.id)
  {
    StartHolds(w);
    PoolRunKeepsInv(PoolView(w, map[]), steps);
    hide PoolRun, PoolCanRun, WorkerInv;
    assert TransportOwns(PoolRun(PoolView(w, map[]), steps).index, PoolRun(PoolView(w, map[]), steps).worker.transports[ti]);
  }

  /** In every reachable state, shutting an open transport down leaves none of its entries in the index
      if and only if no connection has a live QUIC connection besides the one it holds. */
  lemma {:induction false} ShutdownClearsTheIndexExactly(w: Worker, steps: seq<WorkerStep>, ti: nat)
    requires Starts(w) && PoolCanRun(PoolView(w, map[]), steps)
    requires var v := PoolRun(PoolView(w, map[]), steps).worker; ti < |v.transports| && !v.transports[ti].closed
    ensures var v := PoolRun(PoolView(w, map[]), steps);
            var t := v.worker.transports[ti];
            NothingLeft(IndexAfter(v.index, t, DoShutdown), t) <==> OnlyCurrent(t)
  {
    StartHolds(w);
    PoolRunKeepsInv(PoolView(w, map[]), steps);
    var v := PoolRun(PoolView(w, map[]), steps);
    hide PoolRun, PoolCanRun, IndexAfter, NothingLeft, OnlyCurrent, Starts;
    WorkerFacts(v.worker, ti);
    assert TransportOwns(v.index, v.worker.transports[ti]);
    LeftByShutdown(v.index, v.worker.transports[ti]);
  }

  // ---- a run that leaves an entry ----

  /** The index over a run of one transport that has the pool to itself. */
  ghost function IndexOver(index: map<Key, Owner>, t: Transport, steps: seq<Step>): map<Key, Owner>
    requires CanRun(t, steps)
    decreases |steps|
  {
    if steps == [] then index else IndexOver(IndexAfter(index, t, steps[0]), Apply(t, steps[0]), steps[1..])
  }

  /** Alone, a transport owns the whole index. */
  ghost predicate Alone(index: map<Key, Owner>, t: Transport) {
    && DirectSafety.Inv(t) && AllIndexed(t) && Owns(index, t) && !t.closed
    && AllOwned(index, t)
  }

  ghost predicate AllOwned(index: map<Key, Owner>, t: Transport) {
    forall k :: k in index ==> exists i :: 0 <= i < |t.conns| && index[k] == Owner(t.conns[i].id, DIRECT_HOOKS)
  }

  lemma AloneUnused(index: map<Key, Owner>, t: Transport, step: Step)
    requires Alone(index, t) && Enabled(t, step)
    ensures Unused(index, step)
  {
    hide DirectSafety.Inv, AllIndexed;
    forall k | k in index ensures IsLive(t, k) {
      var i :| 0 <= i < |t.conns| && index[k] == Owner(t.conns[i].id, DIRECT_HOOKS);
      assert k in Entries(index, t.conns[i].id);
      assert k in t.conns[i].live;
    }
    if step.DoCreate? {
      forall k | k in index ensures index[k] != Owner(step.id, DIRECT_HOOKS) {
        var i :| 0 <= i < |t.conns| && index[k] == Owner(t.conns[i].id, DIRECT_HOOKS);
        assert t.conns[i].id in Ids(t);
      }
    }
  }

  lemma StaysOpen(t: Transport, step: Step)
    requires Enabled(t, step) && !t.closed && !step.DoShutdown?
    ensures !Apply(t, step).closed && AllEffects(t, step)
  {
    StepEffects(t, step);
    hide Apply;
  }

  lemma {:induction false} AloneStep(index: map<Key, Owner>, t: Transport, step: Step)
    requires Alone(index, t) && Enabled(t, step) && !step.DoShutdown?
    ensures Alone(IndexAfter(index, t, step), Apply(t, step))
  {
    hide Unused, Owns, AllOwned, DirectSafety.Inv, DirectSafety.ConnsInv, AllIndexed, AllEffects, Apply, Enabled, IndexAfter;
    AloneUnused(index, t, step);
    assert DirectSafety.ConnsInv(t) by { InvHasConns(t); }
    StaysOpen(t, step);
    DirectSafety.StepKeepsInv(t, step);
    StepOwns(index, t, step);
    StepIndexes(t, step);
    OwnersStay(index, t, step);
  }

  lemma InvHasConns(t: Transport)
    requires DirectSafety.Inv(t)
    ensures DirectSafety.ConnsInv(t)
  {
  }

  lemma OwnersStay(index: map<Key, Owner>, t: Transport, step: Step)
    requires Enabled(t, step) && AllEffects(t, step) && AllOwned(index, t)
    ensures AllOwned(IndexAfter(index, t, step), Apply(t, step))
  {
    var (after, u) := (IndexAfter(index, t, step), Apply(t, step));
    forall i | 0 <= i < |t.conns| ensures u.conns[i].id == t.conns[i].id {
      OpenKeepsId(t, step, i);
    }
    forall k | k in after ensures exists i :: 0 <= i < |u.conns| && after[k] == Owner(u.conns[i].id, DIRECT_HOOKS) {
      hide Apply, Effect, OpensAtMostOne, Ends;
      if k in index && after[k] == index[k] {
        var i :| 0 <= i < |t.conns| && index[k] == Owner(t.conns[i].id, DIRECT_HOOKS);
        assert after[k] == Owner(u.conns[i].id, DIRECT_HOOKS);
      } else {
        assert after[k] == Owner(u.conns[step.ci].id, DIRECT_HOOKS);
      }
    }
  }

  lemma {:induction false} AloneRun(index: map<Key, Owner>, t: Transport, steps: seq<Step>)
    requires Alone(index, t) && CanRun(t, steps) && DoShutdown !in steps
    ensures Alone(IndexOver(index, t, steps), Run(t, steps))
    decreases |steps|
  {
    hide Alone, Apply, Enabled, IndexAfter;
    if steps != [] {
      assert steps[0] in steps && forall s :: s in steps[1..] ==> s in steps;
      AloneStep(index, t, steps[0]);
      AloneRun(IndexAfter(index, t, steps[0]), Apply(t, steps[0]), steps[1..]);
    }
  }

  /** The transport shuts down while it is reconnecting: connection 7 leaves the index, connection 6, whose
      write was refused, stays in it with an owner that is gone. */
  lemma {:induction false} ShutdownLeavesAnEntry()
    ensures CanRun(Initial(), ReconnectRun())
    ensures var (t, index) := (Run(Initial(), ReconnectRun()), IndexOver(map[], Initial(), ReconnectRun()));
            var after := IndexAfter(index, t, DoShutdown);
            && !t.closed && !OnlyCurrent(t) && !NothingLeft(after, t)
            && 6 in after && after[6] == Owner(0, DIRECT_HOOKS) && 7 in index && 7 !in after
  {
    ReconnectReaches();
    InitialInv();
    NoShutdownThere();
    hide Run, CanRun, Apply, Enabled, ReconnectRun, DirectSafety.Inv;
    AloneRun(map[], Initial(), ReconnectRun());
    var (t, index) := (Reconnected(), IndexOver(map[], Initial(), ReconnectRun()));
    assert t.conns[0].live == Entries(index, 0) && 6 in t.conns[0].live && 7 in t.conns[0].live;
    assert Handles(t) == {7};
    assert t.conns[0].cnx == Some(7);
    assert !OnlyCurrent(t) by { assert 6 in t.conns[0].live && t.conns[0].cnx != Some(6); }
    assert 6 in Entries(IndexAfter(index, t, DoShutdown), 0);
  }

  lemma NoShutdownThere()
    ensures DoShutdown !in ReconnectRun()
  {
  }
}
