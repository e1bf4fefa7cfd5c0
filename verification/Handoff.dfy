/** The bounded handoff queue as a value, and the ring buffer that implements it. */
module HandoffQueue {
  import opened Options
  import opened RealmQuota
  import opened ArenaModel

  type Notifier = nat

  datatype PushError = QueueFull | RealmOverShare

  /** Contents oldest first, and the wake-up callback currently registered. */
  datatype Queue<T> = Queue(contents: seq<T>, capacity: nat, notifier: Option<Notifier>)

  function Push<T>(q: Queue<T>, item: T): Queue<T> {
    q.(contents := q.contents + [item])
  }

  /** The callback a push has to fire once the lock is released: only when the queue was empty. */
  function CapturedByPush<T>(q: Queue<T>): Option<Notifier> {
    if q.contents == [] then q.notifier else None
  }

  function SetNotifier<T>(q: Queue<T>, notifier: Option<Notifier>): Queue<T> {
    q.(notifier := notifier)
  }

  /** Registering fires at once if there is a backlog. */
  function CapturedBySet<T>(q: Queue<T>, notifier: Option<Notifier>): Option<Notifier> {
    if q.contents == [] then None else notifier
  }

  function Pop<T>(q: Queue<T>): Queue<T>
    requires q.contents != []
  {
    q.(contents := q.contents[1..])
  }

  /** Realm charges of a backlog; a queue whose items carry no realm charges nobody. */
  function Backlog<T>(realmOf: T -> Realm, items: seq<T>, tracked: nat): multiset<Realm> {
    if items == [] then multiset{} else Charge(Some(realmOf(items[0])), tracked) + Backlog(realmOf, items[1..], tracked)
  }

  lemma {:induction false} BacklogAppend<T>(realmOf: T -> Realm, items: seq<T>, x: T, tracked: nat)
    ensures Backlog(realmOf, items + [x], tracked) == Backlog(realmOf, items, tracked) + Charge(Some(realmOf(x)), tracked)
  {
    if items == [] {
      assert items + [x] == [x];
    } else {
      assert (items + [x])[1..] == items[1..] + [x];
      BacklogAppend(realmOf, items[1..], x, tracked);
    }
  }

  /** One more item is one more unit charged. */
  lemma BacklogGains<T>(realmOf: T -> Realm, items: seq<T>, x: T, tracked: nat)
    ensures Backlog(realmOf, items + [x], tracked) == WithOne(Backlog(realmOf, items, tracked), tracked, realmOf(x))
  {
    BacklogAppend(realmOf, items, x, tracked);
    hide Backlog;
  }

  /** Taking the first item and crediting its realm leaves the charges of the rest. */
  lemma BacklogLosesFirst<T>(realmOf: T -> Realm, items: seq<T>, tracked: nat)
    requires items != []
    ensures Backlog(realmOf, items[1..], tracked) == WithoutOne(Backlog(realmOf, items, tracked), realmOf(items[0]))
  {
    BacklogSize(realmOf, items, tracked);
    BacklogSize(realmOf, items[1..], tracked);
    assert Backlog(realmOf, items, tracked) == Charge(Some(realmOf(items[0])), tracked) + Backlog(realmOf, items[1..], tracked);
  }

  lemma {:induction false} BacklogSize<T>(realmOf: T -> Realm, items: seq<T>, tracked: nat)
    ensures |Backlog(realmOf, items, tracked)| <= |items|
    ensures forall r :: r in Backlog(realmOf, items, tracked) ==> r < tracked
  {
    if items != [] {
      BacklogSize(realmOf, items[1..], tracked);
    }
  }

  /** A realm with nothing in the backlog is never turned away by the quota. */
  lemma QuietRealmIsAdmitted<T>(realmOf: T -> Realm, items: seq<T>, tracked: nat, capacity: nat, watermark: nat, realm: Realm)
    requires 0 < capacity && |items| <= capacity
    requires forall i :: 0 <= i < |items| ==> realmOf(items[i]) != realm
    ensures Admits(Backlog(realmOf, items, tracked), tracked, capacity, watermark, realm)
  {
    BacklogSize(realmOf, items, tracked);
    BacklogMembers(realmOf, items, tracked, realm);
    NewcomerNeverRefused(Backlog(realmOf, items, tracked), tracked, capacity, watermark, realm);
  }

  lemma {:induction false} BacklogMembers<T>(realmOf: T -> Realm, items: seq<T>, tracked: nat, realm: Realm)
    requires forall i :: 0 <= i < |items| ==> realmOf(items[i]) != realm
    ensures realm !in Backlog(realmOf, items, tracked)
  {
    if items != [] {
      BacklogMembers(realmOf, items[1..], tracked, realm);
    }
  }
}

/** A fixed array used as a ring; every method is one critical section under the queue's lock. */
module HandoffRing {
  import opened Options
  import opened RealmQuota
  import opened ArenaModel
  import opened HandoffQueue

  /** `(head + i) % n` for indices that wrap at most once. */
  function Slot(head: nat, i: nat, n: nat): (r: nat)
    requires head < n && i <= n
    ensures r < n && r == (head + i) % n
  {
    if head + i < n then head + i else
      assert (head + i) % n == head + i - n by { WrapOnce(head + i, n); }
      head + i - n
  }

  lemma WrapOnce(x: nat, n: nat)
    requires 0 < n <= x < 2 * n
    ensures x % n == x - n
  {
    assert x == n + (x - n);
  }

  /** The ring holds `contents` from `head` on, wrapping around. */
  ghost predicate HoldsFrom<T>(buf: seq<T>, head: nat, contents: seq<T>) {
    && head < |buf| && |contents| <= |buf|
    && forall i :: 0 <= i < |contents| ==> buf[Slot(head, i, |buf|)] == contents[i]
  }

  /** Writing behind the last item touches none of the others. */
  lemma RingGrows<T>(buf: seq<T>, head: nat, contents: seq<T>, x: T)
    requires HoldsFrom(buf, head, contents) && |contents| < |buf|
    ensures Slot(head, |contents|, |buf|) == (head + |contents|) % |buf|
    ensures HoldsFrom(buf[Slot(head, |contents|, |buf|) := x], head, contents + [x])
  {
  }

  /** Moving the head past the first item leaves the rest in place. */
  lemma RingShrinks<T>(buf: seq<T>, head: nat, contents: seq<T>)
    requires HoldsFrom(buf, head, contents) && contents != []
    ensures buf[head] == contents[0] && HoldsFrom(buf, (head + 1) % |buf|, contents[1..])
  {
    var next := Slot(head, 1, |buf|);
    assert buf[Slot(head, 0, |buf|)] == contents[0];
    forall i | 0 <= i < |contents| - 1 ensures Slot(next, i, |buf|) == Slot(head, i + 1, |buf|) {
    }
  }

  class RingQueue<T(0)> {
    const items: array<T>
    /** The realm dimension: present for application messages, absent for raw packets. */
    const realmOf: Option<T -> Realm>
    const quota: Quota
    var head: nat
    var len: nat
    var notifier: Option<Notifier>
    ghost var contents: seq<T>

    ghost function View(): Queue<T>
      reads this
    {
      Queue(contents, items.Length, notifier)
    }

    ghost predicate Valid()
      reads this, items, quota, quota.counts
    {
      && 0 < items.Length && head < items.Length && len == |contents| <= items.Length
      && HoldsFrom(items[..], head, contents)
      && quota.Valid() && quota.capacity == items.Length
      && items as object != quota.counts as object
      && quota.Held == if realmOf.Some? then Backlog(realmOf.value, contents, quota.counts.Length) else multiset{}
    }

    constructor (capacity: nat, realmOf: Option<T -> Realm>)
      requires 0 < capacity
      ensures Valid() && View() == Queue([], capacity, None) && this.realmOf == realmOf
      ensures fresh(items) && fresh(quota) && fresh(quota.counts)
    {
      items := new T[capacity];
      this.realmOf := realmOf;
      quota := new Quota(MAX_TRACKED_REALMS, capacity, DEFAULT_WATERMARK_PERCENT);
      head, len, notifier, contents := 0, 0, None, [];
    }

    /** Registers or clears the callback; returns the one to fire after unlocking. */
    method SetNotifier(n: Option<Notifier>) returns (captured: Option<Notifier>)
      requires Valid()
      modifies this`notifier
      ensures Valid() && View() == HandoffQueue.SetNotifier(old(View()), n)
      ensures captured == CapturedBySet(old(View()), n)
      ensures captured == if old(contents) != [] then n else None
    {
      captured := if len != 0 then n else None;
      notifier := n;
    }

    /** Appends one item, or refuses it; returns the callback to fire after unlocking. */
    method Push(item: T) returns (r: Result<Option<Notifier>, PushError>)
      requires Valid()
      modifies this`len, this`contents, items, quota, quota.counts
      ensures Valid()
      ensures r == old(
                if |contents| == items.Length then Err(QueueFull)
                else if realmOf.Some? && !Admits(quota.Held, quota.counts.Length, quota.capacity, quota.watermark, realmOf.value(item))
                  then Err(RealmOverShare)
                else Ok(CapturedByPush(View())))
      ensures r.Ok? ==> r.value == if old(contents) == [] then notifier else None
      ensures contents == if r.Ok? then old(contents) + [item] else old(contents)
      ensures View() == if r.Ok? then HandoffQueue.Push(old(View()), item) else old(View())
    {
      hide Admits, Slot, HoldsFrom, Backlog, WithOne;
      if len == items.Length {
        return Err(QueueFull);
      }
      if realmOf.Some? {
        var ok := quota.Allows(realmOf.value(item));
        if !ok {
          return Err(RealmOverShare);
        }
      }
      var wasEmpty := len == 0;
      RingGrows(items[..], head, contents, item);
      items[(head + len) % items.Length] := item;
      len := len + 1;
      if realmOf.Some? {
        BacklogGains(realmOf.value, contents, item, quota.counts.Length);
        quota.Acquire(realmOf.value(item));
      }
      contents := contents + [item];
      return Ok(if wasEmpty then notifier else None);
    }

    /** Takes the oldest item; giving the realm its unit back happens under the same lock. */
    method Pop() returns (r: Option<T>)
      requires Valid()
      modifies this`head, this`len, this`contents, quota, quota.counts
      ensures Valid()
      ensures r == if old(contents) == [] then None else Some(old(contents)[0])
      ensures View() == if r.Some? then HandoffQueue.Pop(old(View())) else old(View())
    {
      hide Slot, HoldsFrom, Backlog, WithoutOne;
      if len == 0 {
        return None;
      }
      RingShrinks(items[..], head, contents);
      var item := items[head];
      head := (head + 1) % items.Length;
      len := len - 1;
      if realmOf.Some? {
        BacklogLosesFirst(realmOf.value, contents, quota.counts.Length);
        quota.Release(realmOf.value(item));
      }
      contents := contents[1..];
      return Some(item);
    }
  }
}

/** The wake-up protocol around the queue: producers, registrations and the consumer interleave
    freely, and firing a captured callback is a step of its own, taken outside the lock. */
module WakeUp {
  import opened Options
  import opened HandoffQueue

  /** `captured`: callbacks read under the lock and not yet fired; `pending`: fired, the consumer
      has not run yet (wake-ups of one consumer coalesce); `draining`: the consumer is in its
      pop-until-null loop. `pushed` and `popped` are the history of accepted and taken items. */
  datatype State<T> = State(
    queue: Queue<T>, captured: multiset<Notifier>, pending: set<Notifier>, draining: bool,
    pushed: seq<T>, popped: seq<T>)

  datatype Step<T> =
    | DoPush(item: T)
    | DoSetNotifier(notifier: Option<Notifier>)
    | Fire(n: Notifier)
    | Wake(n: Notifier)
    | PopOne
    | PopNull

  function Capture(captured: multiset<Notifier>, n: Option<Notifier>): multiset<Notifier> {
    if n.Some? then captured + multiset{n.value} else captured
  }

  predicate Enabled<T>(s: State<T>, step: Step<T>) {
    match step
    case DoPush(_) => |s.queue.contents| < s.queue.capacity
    case DoSetNotifier(_) => true
    case Fire(n) => n in s.captured
    case Wake(n) => n in s.pending
    case PopOne => s.draining && s.queue.contents != []
    case PopNull => s.draining && s.queue.contents == []
  }

  function Apply<T>(s: State<T>, step: Step<T>): State<T>
    requires Enabled(s, step)
  {
    match step
    case DoPush(x) =>
      s.(queue := Push(s.queue, x), captured := Capture(s.captured, CapturedByPush(s.queue)), pushed := s.pushed + [x])
    case DoSetNotifier(n) =>
      s.(queue := SetNotifier(s.queue, n), captured := Capture(s.captured, CapturedBySet(s.queue, n)))
    case Fire(n) => s.(captured := s.captured - multiset{n}, pending := s.pending + {n})
    case Wake(n) => s.(pending := s.pending - {n}, draining := true)
    case PopOne => s.(queue := Pop(s.queue), popped := s.popped + [s.queue.contents[0]])
    case PopNull => s.(draining := false)
  }

  function Initial<T>(capacity: nat): State<T> {
    State(Queue([], capacity, None), multiset{}, {}, false, [], [])
  }

  /** Somebody is going to look at the queue on behalf of consumer `n`. */
  predicate Attended<T>(s: State<T>, n: Notifier) {
    s.draining || n in s.pending || n in s.captured
  }

  /** No wake-up is lost, nothing is reordered or dropped, and the bound holds. */
  ghost predicate Inv<T>(s: State<T>) {
    && (s.queue.notifier.Some? && s.queue.contents != [] ==> Attended(s, s.queue.notifier.value))
    && s.pushed == s.popped + s.queue.contents
    && |s.queue.contents| <= s.queue.capacity
  }

  /** No wake-up for nothing: a callback is captured only by a push onto an empty queue, and then the one
      registered, or by registering on a backlog, and then the one being registered. */
  lemma WakeUpsAreEarned<T>(s: State<T>, step: Step<T>, n: Notifier)
    requires Enabled(s, step)
    ensures Apply(s, step).captured[n] > s.captured[n] <==>
              || (step.DoPush? && s.queue.contents == [] && s.queue.notifier == Some(n))
              || (step.DoSetNotifier? && s.queue.contents != [] && step.notifier == Some(n))
    ensures Apply(s, step).captured[n] <= s.captured[n] + 1
  {
  }

  lemma StepKeepsInv<T>(s: State<T>, step: Step<T>)
    requires Inv(s) && Enabled(s, step)
    ensures Inv(Apply(s, step))
  {
    match step
    case DoPush(x) => assert s.pushed + [x] == s.popped + (s.queue.contents + [x]);
    case PopOne => assert s.queue.contents == [s.queue.contents[0]] + s.queue.contents[1..];
    case _ =>
  }

  /** A run: each step enabled where it is taken. */
  predicate CanRun<T>(s: State<T>, steps: seq<Step<T>>)
    decreases |steps|
  {
    steps == [] || (Enabled(s, steps[0]) && CanRun(Apply(s, steps[0]), steps[1..]))
  }

  function Run<T>(s: State<T>, steps: seq<Step<T>>): State<T>
    requires CanRun(s, steps)
    decreases |steps|
  {
    if steps == [] then s else Run(Apply(s, steps[0]), steps[1..])
  }

  /** In every reachable state, whatever the interleaving: the queue is a bounded FIFO, and a
      backlog with a registered consumer is always attended. */
  lemma {:induction false} NoLostWakeUp<T>(s: State<T>, steps: seq<Step<T>>)
    requires Inv(s) && CanRun(s, steps)
    ensures Inv(Run(s, steps))
    decreases |steps|
  {
    if steps != [] {
      StepKeepsInv(s, steps[0]);
      NoLostWakeUp(Apply(s, steps[0]), steps[1..]);
    }
  }

  /** Read at rest: once nothing is in flight, a registered consumer has left nothing behind. */
  lemma QuietMeansEmpty<T>(capacity: nat, steps: seq<Step<T>>)
    requires CanRun(Initial(capacity), steps)
    ensures var t := Run(Initial(capacity), steps);
            t.queue.notifier.Some? && t.captured == multiset{} && t.pending == {} && !t.draining ==>
              t.queue.contents == [] && t.popped == t.pushed
  {
    NoLostWakeUp(Initial<T>(capacity), steps);
  }

  /** The consumer steps that empty the queue from an attended state. */
  function DrainSchedule<T>(s: State<T>, n: Notifier): seq<Step<T>>
    requires Attended(s, n)
  {
    if s.draining then seq(|s.queue.contents|, _ => PopOne)
    else if n in s.pending then [Wake(n)] + seq(|s.queue.contents|, _ => PopOne)
    else [Fire(n), Wake(n)] + seq(|s.queue.contents|, _ => PopOne)
  }

  lemma {:induction false} PopsDrain<T>(s: State<T>, pops: seq<Step<T>>)
    requires s.draining && pops == seq(|s.queue.contents|, _ => PopOne)
    ensures CanRun(s, pops) && Run(s, pops).queue.contents == []
    ensures Run(s, pops).popped == s.popped + s.queue.contents
    decreases |pops|
  {
    if s.queue.contents == [] {
      assert s.popped + s.queue.contents == s.popped;
    } else {
      var t := Apply(s, PopOne);
      assert pops[1..] == seq(|t.queue.contents|, _ => PopOne);
      PopsDrain(t, pops[1..]);
      assert s.popped + s.queue.contents == t.popped + t.queue.contents;
    }
  }

  /** An attended backlog can always be drained by the steps already on their way: no new push or
      registration is needed to get the consumer moving. */
  lemma AttendedBacklogDrains<T>(s: State<T>, n: Notifier)
    requires Attended(s, n)
    ensures var d := DrainSchedule(s, n);
            CanRun(s, d) && Run(s, d).queue.contents == [] && Run(s, d).popped == s.popped + s.queue.contents
  {
    var pops: seq<Step<T>> := seq(|s.queue.contents|, _ => PopOne);
    if s.draining {
      PopsDrain(s, pops);
    } else if n in s.pending {
      var t := Apply(s, Wake(n));
      PopsDrain(t, pops);
      assert ([Wake(n)] + pops)[1..] == pops;
    } else {
      var t := Apply(s, Fire(n));
      var u := Apply(t, Wake(n));
      PopsDrain(u, pops);
      var d := [Fire(n), Wake(n)] + pops;
      assert d[1..] == [Wake(n)] + pops && d[1..][1..] == pops;
    }
  }
}
