/** The shared receive arena as a value: chains, header fields, byte buffer, realm charges and the
    history of every queue, with one function per operation and the invariant each one keeps. */
module ArenaModel {
  import opened Options
  import opened RealmQuota
  import opened SlotChains

  /** One chunk as the consumer sees it. */
  datatype Event = Event(streamId: nat, data: seq<Byte>, isFin: bool, kind: RecvKind)

  datatype Header = Header(head: Option<nat>, tail: Option<nat>, count: nat, realm: Realm)

  datatype Arena<K> = Arena(
    layout: Layout<K>, bytes: seq<Byte>, freeHead: Option<nat>, freeCount: nat,
    headers: map<K, Header>, held: multiset<Realm>, tracked: nat, perConn: nat,
    accepted: map<K, seq<Event>>, popped: map<K, seq<Event>>)

  // ---- the byte buffer ----

  ghost predicate Sized(slots: seq<Slot>, bytes: seq<Byte>) {
    |bytes| == |slots| * SLOT_BYTES && forall i :: 0 <= i < |slots| ==> slots[i].len <= SLOT_BYTES
  }

  /** What slot `i` holds; an index outside the arena holds nothing. */
  function EventAt(slots: seq<Slot>, bytes: seq<Byte>, i: nat): Event {
    if i < |slots| && i * SLOT_BYTES + slots[i].len <= |bytes| then
      Event(slots[i].streamId, bytes[i * SLOT_BYTES..i * SLOT_BYTES + slots[i].len], slots[i].isFin, slots[i].kind)
    else
      Event(0, [], false, Data)
  }

  function EventsOf(slots: seq<Slot>, bytes: seq<Byte>, q: seq<nat>): seq<Event> {
    if q == [] then [] else [EventAt(slots, bytes, q[0])] + EventsOf(slots, bytes, q[1..])
  }

  function Blit(bytes: seq<Byte>, at: nat, chunk: seq<Byte>): seq<Byte>
    requires at + |chunk| <= |bytes|
  {
    bytes[..at] + chunk + bytes[at + |chunk|..]
  }

  lemma {:induction false} EventsFrame(slots: seq<Slot>, bytes: seq<Byte>, slots': seq<Slot>, bytes': seq<Byte>, q: seq<nat>)
    requires forall i :: i in q ==> EventAt(slots', bytes', i) == EventAt(slots, bytes, i)
    ensures EventsOf(slots', bytes', q) == EventsOf(slots, bytes, q)
  {
    if q != [] {
      assert q[0] in q && forall i :: i in q[1..] ==> i in q;
      EventsFrame(slots, bytes, slots', bytes', q[1..]);
    }
  }

  lemma {:induction false} EventsAppend(slots: seq<Slot>, bytes: seq<Byte>, q: seq<nat>, x: nat)
    ensures EventsOf(slots, bytes, q + [x]) == EventsOf(slots, bytes, q) + [EventAt(slots, bytes, x)]
  {
    if q == [] {
      assert q + [x] == [x];
    } else {
      assert (q + [x])[1..] == q[1..] + [x];
      EventsAppend(slots, bytes, q[1..], x);
    }
  }

  /** Links and realms are not part of what the consumer sees. */
  lemma EventsIgnoreLinks(slots: seq<Slot>, slots': seq<Slot>, bytes: seq<Byte>)
    requires |slots'| == |slots|
    requires forall i :: 0 <= i < |slots| ==>
               && slots'[i].streamId == slots[i].streamId && slots'[i].len == slots[i].len
               && slots'[i].isFin == slots[i].isFin && slots'[i].kind == slots[i].kind
    ensures forall i: nat :: EventAt(slots', bytes, i) == EventAt(slots, bytes, i)
  {
  }

  /** Writing into one slot's region leaves every other slot's bytes alone. */
  lemma BlitFrame(slots: seq<Slot>, bytes: seq<Byte>, x: nat, s: Slot, chunk: seq<Byte>, i: nat)
    requires Sized(slots, bytes) && x < |slots| && i < |slots| && i != x && |chunk| <= SLOT_BYTES
    ensures EventAt(slots[x := s], Blit(bytes, x * SLOT_BYTES, chunk), i) == EventAt(slots, bytes, i)
  {
    SlotsApart(bytes, x, chunk, i, slots[i].len);
    hide Blit;
  }

  /** Within the region of slot `i` nothing changes. */
  lemma SlotsApart(bytes: seq<Byte>, x: nat, chunk: seq<Byte>, i: nat, len: nat)
    requires x != i && |chunk| <= SLOT_BYTES && len <= SLOT_BYTES
    requires x * SLOT_BYTES + |chunk| <= |bytes| && i * SLOT_BYTES + len <= |bytes|
    ensures |Blit(bytes, x * SLOT_BYTES, chunk)| == |bytes|
    ensures Blit(bytes, x * SLOT_BYTES, chunk)[i * SLOT_BYTES..i * SLOT_BYTES + len] == bytes[i * SLOT_BYTES..i * SLOT_BYTES + len]
  {
    var (at, lo) := (x * SLOT_BYTES, i * SLOT_BYTES);
    var b := Blit(bytes, at, chunk);
    assert lo + len <= at || at + |chunk| <= lo by {
      if i < x {
        assert (i + 1) * SLOT_BYTES <= x * SLOT_BYTES;
      } else {
        assert (x + 1) * SLOT_BYTES <= i * SLOT_BYTES;
      }
    }
    forall k | lo <= k < lo + len ensures b[k] == bytes[k] {
    }
  }

  // ---- realm charges ----

  function Charge(h: Option<Realm>, tracked: nat): multiset<Realm> {
    if h.Some? && h.value < tracked then multiset{h.value} else multiset{}
  }

  /** Whom each slot is charged to: nobody while it is free. */
  ghost function Holders<K>(a: Layout<K>): (h: seq<Option<Realm>>)
    requires |a.owner| == |a.slots|
    ensures |h| == |a.slots|
    ensures forall i :: 0 <= i < |h| ==> h[i] == if a.owner[i].Free? then None else Some(a.slots[i].realm)
  {
    seq(|a.slots|, i requires 0 <= i < |a.slots| => if a.owner[i].Free? then None else Some(a.slots[i].realm))
  }

  /** The units charged to realms that are tracked. */
  function HeldBy(h: seq<Option<Realm>>, tracked: nat): multiset<Realm> {
    if h == [] then multiset{} else Charge(h[0], tracked) + HeldBy(h[1..], tracked)
  }

  lemma ExchangeUnder(c: multiset<Realm>, a: multiset<Realm>, b: multiset<Realm>, d: multiset<Realm>, e: multiset<Realm>)
    requires a + d == b + e
    ensures (c + a) + d == (c + b) + e
  {
    assert (c + a) + d == c + (a + d);
  }

  lemma {:induction false} HeldByUpdate(h: seq<Option<Realm>>, tracked: nat, x: nat, v: Option<Realm>)
    requires x < |h|
    ensures HeldBy(h[x := v], tracked) + Charge(h[x], tracked) == HeldBy(h, tracked) + Charge(v, tracked)
  {
    var h' := h[x := v];
    if x == 0 {
      assert h'[1..] == h[1..];
    } else {
      assert h'[1..] == h[1..][x - 1 := v];
      HeldByUpdate(h[1..], tracked, x - 1, v);
      ExchangeUnder(Charge(h[0], tracked), HeldBy(h'[1..], tracked), HeldBy(h[1..], tracked),
                    Charge(h[x], tracked), Charge(v, tracked));
    }
  }

  lemma {:induction false} HeldAtMostSlots(h: seq<Option<Realm>>, tracked: nat)
    ensures |HeldBy(h, tracked)| <= |h|
  {
    if h != [] {
      HeldAtMostSlots(h[1..], tracked);
    }
  }

  // ---- the invariant ----

  /** One queue: exact header fields, one realm, and a history that splits into what was popped
      and what is still queued. */
  ghost predicate QueueInv<K>(s: Arena<K>, l: K) {
    && l in s.layout.queues && l in s.headers && l in s.accepted && l in s.popped
    && var q := s.layout.queues[l];
    && s.headers[l].head == First(q) && s.headers[l].tail == Last(q)
    && s.headers[l].count == |q| <= s.perConn
    && (forall i :: i in q && i < |s.layout.slots| ==> s.layout.slots[i].realm == s.headers[l].realm)
    && s.accepted[l] == s.popped[l] + EventsOf(s.layout.slots, s.bytes, q)
  }

  ghost predicate Base<K>(s: Arena<K>) {
    && Sound(s.layout) && Sized(s.layout.slots, s.bytes) && 1 <= |s.layout.slots|
    && s.freeHead == First(s.layout.free) && s.freeCount == |s.layout.free|
  }

  ghost predicate Queues<K>(s: Arena<K>) {
    && s.headers.Keys == s.layout.queues.Keys && s.accepted.Keys == s.layout.queues.Keys
    && s.popped.Keys == s.layout.queues.Keys
    && forall l :: l in s.layout.queues ==> QueueInv(s, l)
  }

  ghost predicate Charged<K>(s: Arena<K>) {
    |s.layout.owner| == |s.layout.slots| && s.held == HeldBy(Holders(s.layout), s.tracked)
  }

  ghost predicate Inv<K>(s: Arena<K>) {
    Base(s) && Queues(s) && Charged(s)
  }

  // ---- operations ----

  function Cleared(next: Option<nat>): Slot {
    Slot(0, 0, false, Data, 0, next)
  }

  /** Take the head of the free chain for `realm`. The data fields of the slot stay as they are. */
  ghost function Take<K>(s: Arena<K>, realm: Realm): Arena<K>
    requires TakeReady(s)
  {
    var x := s.layout.free[0];
    s.(layout := TakeLayout(s.layout, s.layout.slots[x].(next := None, realm := realm)),
       freeHead := First(s.layout.free[1..]), freeCount := s.freeCount - 1,
       held := s.held + Charge(Some(realm), s.tracked))
  }

  /** Fill in a borrowed slot with one chunk. */
  ghost function Fill<K>(s: Arena<K>, x: nat, e: Event): Arena<K>
    requires FillReady(s, x, e)
  {
    var slot := s.layout.slots[x].(streamId := e.streamId, len := |e.data|, isFin := e.isFin, kind := e.kind);
    s.(layout := s.layout.(slots := s.layout.slots[x := slot]), bytes := Blit(s.bytes, x * SLOT_BYTES, e.data))
  }

  /** Link a borrowed slot behind the tail of queue `l`. */
  ghost function Link<K>(s: Arena<K>, l: K, x: nat): Arena<K>
    requires LinkReady(s, l, x)
  {
    var h := s.headers[l];
    var h' := h.(head := if h.tail.Some? then h.head else Some(x), tail := Some(x), count := h.count + 1);
    s.(layout := AppendLayout(s.layout, l, x), headers := s.headers[l := h'],
       accepted := s.accepted[l := s.accepted[l] + [EventAt(s.layout.slots, s.bytes, x)]])
  }

  ghost function Pop<K>(s: Arena<K>, l: K): Arena<K>
    requires PopReady(s, l)
  {
    var q := s.layout.queues[l];
    var h := s.headers[l];
    var head := First(q[1..]);
    s.(layout := PopLayout(s.layout, l),
       headers := s.headers[l := h.(head := head, tail := if head.None? then None else h.tail, count := h.count - 1)],
       popped := s.popped[l := s.popped[l] + [EventAt(s.layout.slots, s.bytes, q[0])]])
  }

  ghost function Release<K>(s: Arena<K>, x: nat): Arena<K>
    requires Loaned(s, x)
  {
    s.(layout := ReleaseLayout(s.layout, x, Cleared(s.freeHead)),
       freeHead := Some(x), freeCount := s.freeCount + 1,
       held := s.held - Charge(Some(s.layout.slots[x].realm), s.tracked))
  }

  function Open<K>(s: Arena<K>, l: K, realm: Realm): Arena<K> {
    s.(layout := s.layout.(queues := s.layout.queues[l := []]),
       headers := s.headers[l := Header(None, None, 0, realm)],
       accepted := s.accepted[l := []], popped := s.popped[l := []])
  }

  // ---- every operation keeps the invariant ----

  /** Slot `i` shows the consumer the same chunk before and after. */
  predicate SameEvent<K>(s: Arena<K>, t: Arena<K>, i: nat) {
    EventAt(t.layout.slots, t.bytes, i) == EventAt(s.layout.slots, s.bytes, i)
  }

  /** A queue that an operation does not touch keeps its invariant. */
  lemma QueueFrame<K>(s: Arena<K>, t: Arena<K>, l: K)
    requires QueueInv(s, l) && t.perConn == s.perConn && |t.layout.slots| == |s.layout.slots|
    requires l in t.layout.queues && t.layout.queues[l] == s.layout.queues[l]
    requires l in t.headers && t.headers[l] == s.headers[l]
    requires l in t.accepted && t.accepted[l] == s.accepted[l] && l in t.popped && t.popped[l] == s.popped[l]
    requires forall i :: i in s.layout.queues[l] && i < |s.layout.slots| ==>
               t.layout.slots[i].realm == s.layout.slots[i].realm
    requires forall i :: i in s.layout.queues[l] ==> SameEvent(s, t, i)
    ensures QueueInv(t, l)
  {
    EventsFrame(s.layout.slots, s.bytes, t.layout.slots, t.bytes, s.layout.queues[l]);
  }

  /** A queue's slots belong to it, so nobody else's slot is among them. */
  lemma QueueMembers<K>(a: Layout<K>, l: K)
    requires Sound(a) && l in a.queues
    ensures forall i :: i in a.queues[l] ==> i < |a.slots| && a.owner[i] == Queued(l)
  {
    assert Chain(a, Queued(l), a.queues[l]);
  }

  ghost predicate TakeReady<K>(s: Arena<K>) {
    && s.layout.free != [] && s.layout.free[0] < |s.layout.slots| == |s.layout.owner| && 0 < s.freeCount
    && s.layout.owner[s.layout.free[0]] == Free
    && s.layout.slots[s.layout.free[0]].next == First(s.layout.free[1..])
  }

  lemma TakeBase<K>(s: Arena<K>, realm: Realm)
    requires Base(s) && s.layout.free != []
    ensures TakeReady(s) && Base(Take(s, realm))
  {
    var x := s.layout.free[0];
    TakeKeepsSound(s.layout, s.layout.slots[x].(next := None, realm := realm));
  }

  lemma {:induction false} TakeQueues<K>(s: Arena<K>, realm: Realm)
    requires Base(s) && Queues(s) && TakeReady(s)
    ensures Queues(Take(s, realm))
    ensures forall i: nat :: SameEvent(s, Take(s, realm), i)
  {
    hide QueueInv, Charge;
    var t := Take(s, realm);
    EventsIgnoreLinks(s.layout.slots, t.layout.slots, s.bytes);
    assert forall i: nat :: SameEvent(s, t, i);
    hide EventAt, SameEvent, Sound, Sized;
    forall l | l in t.layout.queues ensures QueueInv(t, l) {
      QueueMembers(s.layout, l);
      QueueFrame(s, t, l);
    }
  }

  lemma TakeCharges<K>(s: Arena<K>, realm: Realm)
    requires Charged(s) && TakeReady(s)
    ensures Charged(Take(s, realm))
  {
    var x := s.layout.free[0];
    HeldByUpdate(Holders(s.layout), s.tracked, x, Some(realm));
    assert Holders(Take(s, realm).layout) == Holders(s.layout)[x := Some(realm)];
  }

  lemma TakeKeepsInv<K>(s: Arena<K>, realm: Realm)
    requires Inv(s) && s.layout.free != []
    ensures TakeReady(s) && Inv(Take(s, realm))
    ensures forall i: nat :: SameEvent(s, Take(s, realm), i)
  {
    TakeBase(s, realm);
    TakeQueues(s, realm);
    TakeCharges(s, realm);
  }

  predicate FillReady<K>(s: Arena<K>, x: nat, e: Event) {
    && x < |s.layout.slots| == |s.layout.owner| && s.layout.owner[x].Borrowed?
    && |e.data| <= SLOT_BYTES && x * SLOT_BYTES + |e.data| <= |s.bytes|
  }

  lemma FillBase<K>(s: Arena<K>, x: nat, e: Event)
    requires Base(s) && FillReady(s, x, e)
    ensures Base(Fill(s, x, e))
  {
    FillKeepsSound(s.layout, x, Fill(s, x, e).layout.slots[x]);
  }

  lemma FillEvents<K>(s: Arena<K>, x: nat, e: Event)
    requires Base(s) && FillReady(s, x, e)
    ensures EventAt(Fill(s, x, e).layout.slots, Fill(s, x, e).bytes, x) == e
    ensures forall i: nat :: i != x ==> SameEvent(s, Fill(s, x, e), i)
  {
    var t := Fill(s, x, e);
    forall i: nat | i != x ensures SameEvent(s, t, i) {
      if i < |s.layout.slots| {
        BlitFrame(s.layout.slots, s.bytes, x, t.layout.slots[x], e.data, i);
      }
    }
  }

  lemma {:induction false} FillQueues<K>(s: Arena<K>, x: nat, e: Event)
    requires Base(s) && Queues(s) && FillReady(s, x, e)
    ensures Queues(Fill(s, x, e))
  {
    hide QueueInv, EventAt, SameEvent, Sound, Sized, Blit;
    var t := Fill(s, x, e);
    FillEvents(s, x, e);
    forall l | l in t.layout.queues ensures QueueInv(t, l) {
      QueueMembers(s.layout, l);
      QueueFrame(s, t, l);
    }
  }

  lemma FillKeepsInv<K>(s: Arena<K>, x: nat, e: Event)
    requires Inv(s) && FillReady(s, x, e)
    ensures Inv(Fill(s, x, e))
    ensures EventAt(Fill(s, x, e).layout.slots, Fill(s, x, e).bytes, x) == e
    ensures forall i: nat :: i != x ==> SameEvent(s, Fill(s, x, e), i)
  {
    FillBase(s, x, e);
    FillEvents(s, x, e);
    FillQueues(s, x, e);
    assert Holders(Fill(s, x, e).layout) == Holders(s.layout);
  }

  ghost predicate LinkReady<K>(s: Arena<K>, l: K, x: nat) {
    && x < |s.layout.slots| == |s.layout.owner| && s.layout.owner[x].Borrowed?
    && l in s.layout.queues && l in s.headers && l in s.accepted
    && (s.layout.queues[l] != [] ==> s.layout.queues[l][|s.layout.queues[l]| - 1] < |s.layout.slots|)
    && s.layout.slots[x].realm == s.headers[l].realm && s.headers[l].count + 1 <= s.perConn
  }

  lemma {:induction false} LinkBase<K>(s: Arena<K>, l: K, x: nat)
    requires Base(s) && LinkReady(s, l, x)
    ensures Base(Link(s, l, x))
  {
    AppendKeepsSound(s.layout, l, x);
  }

  lemma LinkEvents<K>(s: Arena<K>, l: K, x: nat)
    requires LinkReady(s, l, x)
    ensures forall i: nat :: SameEvent(s, Link(s, l, x), i)
    ensures forall i :: 0 <= i < |s.layout.slots| ==>
              Link(s, l, x).layout.slots[i].realm == s.layout.slots[i].realm
  {
    EventsIgnoreLinks(s.layout.slots, Link(s, l, x).layout.slots, s.bytes);
  }

  lemma LinkQueue<K>(s: Arena<K>, l: K, x: nat)
    requires QueueInv(s, l) && LinkReady(s, l, x)
    ensures QueueInv(Link(s, l, x), l)
  {
    var t := Link(s, l, x);
    var q := s.layout.queues[l];
    LinkEvents(s, l, x);
    assert forall i :: i in q ==> SameEvent(s, t, i);
    EventsFrame(s.layout.slots, s.bytes, t.layout.slots, t.bytes, q);
    EventsAppend(t.layout.slots, t.bytes, q, x);
    assert SameEvent(s, t, x);
    assert t.layout.queues[l] == q + [x];
    assert forall i :: i in q + [x] <==> i in q || i == x;
  }

  lemma LinkCharges<K>(s: Arena<K>, l: K, x: nat)
    requires Charged(s) && LinkReady(s, l, x)
    ensures Charged(Link(s, l, x))
  {
    LinkEvents(s, l, x);
    assert Holders(Link(s, l, x).layout) == Holders(s.layout);
  }

  lemma LinkOther<K>(s: Arena<K>, l: K, x: nat, m: K)
    requires QueueInv(s, m) && m != l && LinkReady(s, l, x)
    ensures QueueInv(Link(s, l, x), m)
  {
    LinkEvents(s, l, x);
    QueueFrame(s, Link(s, l, x), m);
  }

  lemma {:induction false} LinkQueues<K>(s: Arena<K>, l: K, x: nat)
    requires Queues(s) && LinkReady(s, l, x)
    ensures Queues(Link(s, l, x))
  {
    LinkQueue(s, l, x);
    forall m | m in s.layout.queues && m != l ensures QueueInv(Link(s, l, x), m) {
      LinkOther(s, l, x, m);
    }
  }

  lemma LinkKeepsInv<K>(s: Arena<K>, l: K, x: nat)
    requires Inv(s) && LinkReady(s, l, x)
    ensures Inv(Link(s, l, x))
    ensures forall i: nat :: SameEvent(s, Link(s, l, x), i)
  {
    LinkBase(s, l, x);
    LinkEvents(s, l, x);
    LinkQueues(s, l, x);
    LinkCharges(s, l, x);
  }

  ghost predicate PopReady<K>(s: Arena<K>, l: K) {
    && l in s.layout.queues && s.layout.queues[l] != [] && l in s.headers && l in s.popped
    && s.layout.queues[l][0] < |s.layout.slots| == |s.layout.owner| && 0 < s.headers[l].count
    && s.layout.owner[s.layout.queues[l][0]] == Queued(l)
    && s.layout.slots[s.layout.queues[l][0]].next == First(s.layout.queues[l][1..])
  }

  lemma PopBase<K>(s: Arena<K>, l: K)
    requires Base(s) && Queues(s) && l in s.layout.queues && s.layout.queues[l] != []
    ensures PopReady(s, l) && Base(Pop(s, l))
  {
    PopKeepsSound(s.layout, l);
    assert QueueInv(s, l);
  }

  lemma PopEvents<K>(s: Arena<K>, l: K)
    requires PopReady(s, l)
    ensures forall i: nat :: SameEvent(s, Pop(s, l), i)
    ensures forall i :: 0 <= i < |s.layout.slots| ==>
              Pop(s, l).layout.slots[i].realm == s.layout.slots[i].realm
  {
    EventsIgnoreLinks(s.layout.slots, Pop(s, l).layout.slots, s.bytes);
  }

  lemma PopQueue<K>(s: Arena<K>, l: K)
    requires QueueInv(s, l) && PopReady(s, l)
    ensures QueueInv(Pop(s, l), l)
  {
    var t := Pop(s, l);
    var q := s.layout.queues[l];
    PopEvents(s, l);
    assert forall i :: i in q[1..] ==> i in q && SameEvent(s, t, i);
    EventsFrame(s.layout.slots, s.bytes, t.layout.slots, t.bytes, q[1..]);
    assert t.layout.queues[l] == q[1..];
  }

  lemma PopCharges<K>(s: Arena<K>, l: K)
    requires Charged(s) && PopReady(s, l)
    ensures Charged(Pop(s, l))
  {
    PopEvents(s, l);
    assert Holders(Pop(s, l).layout) == Holders(s.layout);
  }

  lemma PopLoans<K>(s: Arena<K>, l: K)
    requires PopReady(s, l)
    ensures LoansKept(s, Pop(s, l)) && Loaned(Pop(s, l), s.layout.queues[l][0])
  {
    PopEvents(s, l);
  }

  /** Only the popped history of queue `l` may differ. */
  ghost predicate SameBut<K>(s: Arena<K>, t: Arena<K>, l: K) {
    t.accepted == s.accepted && l in t.popped && t.popped == s.popped[l := t.popped[l]]
  }

  lemma SameButSelf<K>(s: Arena<K>, l: K)
    requires l in s.popped
    ensures SameBut(s, s, l)
  {
  }

  lemma {:induction false} PopBooks<K>(s: Arena<K>, t: Arena<K>, l: K)
    requires Inv(t) && l in t.layout.queues && SameBut(s, t, l)
    ensures First(t.layout.queues[l]).None? <==> t.layout.queues[l] == []
    ensures t.layout.queues[l] != [] ==>
              && PopReady(t, l) && SameBut(s, Pop(t, l), l)
              && Pop(t, l).layout.queues == t.layout.queues[l := t.layout.queues[l][1..]]
              && Pop(t, l).freeCount == t.freeCount
  {
    hide Inv;
    if t.layout.queues[l] != [] {
      PopKeepsInv(t, l);
    }
  }

  lemma ReleaseBooks<K>(s: Arena<K>, t: Arena<K>, l: K, x: nat)
    requires Loaned(t, x) && SameBut(s, t, l)
    ensures SameBut(s, Release(t, x), l)
    ensures Release(t, x).layout.queues == t.layout.queues && Release(t, x).freeCount == t.freeCount + 1
  {
  }

  /** What taking the head of queue `l` did: nothing if it was empty; otherwise its first slot is out
      on loan, and so is everything that was on loan before, unchanged. */
  ghost predicate Popped<K>(s: Arena<K>, t: Arena<K>, l: K, r: Option<nat>) {
    && l in s.layout.queues && r == First(s.layout.queues[l])
    && if r.None? then t == s
       else PopReady(s, l) && t == Pop(s, l) && Loaned(t, r.value) && LoansKept(s, t)
  }

  lemma PopIsPopped<K>(s: Arena<K>, l: K)
    requires Inv(s) && l in s.layout.queues
    ensures s.layout.queues[l] == [] ==> Popped(s, s, l, None)
    ensures s.layout.queues[l] != [] ==> PopReady(s, l) && Inv(Pop(s, l)) && Popped(s, Pop(s, l), l, Some(s.layout.queues[l][0]))
  {
    if s.layout.queues[l] != [] {
      PopKeepsInv(s, l);
      PopLoans(s, l);
    }
  }

  /** The fields a take changes. */
  lemma TakeFields<K>(s: Arena<K>, realm: Realm)
    requires TakeReady(s)
    ensures var t := Take(s, realm);
            && t == s.(layout := t.layout, freeHead := t.freeHead, freeCount := s.freeCount - 1, held := WithOne(s.held, s.tracked, realm))
            && t.freeHead == s.layout.slots[s.layout.free[0]].next && t.layout.queues == s.layout.queues
            && t.layout.slots == s.layout.slots[s.layout.free[0] := s.layout.slots[s.layout.free[0]].(next := None, realm := realm)]
  {
  }

  /** The fields a link changes. */
  lemma LinkFields<K>(s: Arena<K>, l: K, x: nat)
    requires LinkReady(s, l, x) && s.headers[l].head == First(s.layout.queues[l]) && s.headers[l].tail == Last(s.layout.queues[l])
    ensures var t := Link(s, l, x);
            var h := s.headers[l];
            && t == s.(layout := t.layout, headers := t.headers, accepted := t.accepted)
            && t.headers == s.headers[l := Header(if h.tail.Some? then h.head else Some(x), Some(x), h.count + 1, h.realm)]
            && t.layout.queues.Keys == s.layout.queues.Keys
            && match h.tail
               case Some(last) => last < |s.layout.slots| && t.layout.slots == s.layout.slots[last := s.layout.slots[last].(next := Some(x))]
               case None => t.layout.slots == s.layout.slots
  {
  }

  /** The fields a pop changes. */
  lemma PopFields<K>(s: Arena<K>, l: K)
    requires PopReady(s, l) && s.headers[l].head == First(s.layout.queues[l])
    ensures var t := Pop(s, l);
            var (h, x) := (s.headers[l], s.layout.queues[l][0]);
            var next := s.layout.slots[x].next;
            && h.head == Some(x) && x < |s.layout.slots|
            && t == s.(layout := t.layout, headers := t.headers, popped := t.popped)
            && t.headers == s.headers[l := Header(next, if next.None? then None else h.tail, h.count - 1, h.realm)]
            && t.layout.queues.Keys == s.layout.queues.Keys
            && t.layout.slots == s.layout.slots[x := s.layout.slots[x].(next := None)]
  {
  }

  /** The fields a release changes, and by how much. */
  lemma ReleaseFields<K>(s: Arena<K>, x: nat)
    requires Inv(s) && Loaned(s, x)
    ensures Release(s, x) == s.(layout := Release(s, x).layout, freeHead := Some(x), freeCount := s.freeCount + 1,
                                held := WithoutOne(s.held, s.layout.slots[x].realm))
    ensures Release(s, x).layout.slots == s.layout.slots[x := Cleared(s.freeHead)]
    ensures Release(s, x).layout.queues == s.layout.queues
  {
    HeldAreTracked(Holders(s.layout), s.tracked);
    CreditBack(s.held, s.layout.slots[x].realm, s.tracked);
  }

  lemma {:induction false} HeldAreTracked(h: seq<Option<Realm>>, tracked: nat)
    ensures forall r :: r in HeldBy(h, tracked) ==> r < tracked
  {
    if h != [] {
      HeldAreTracked(h[1..], tracked);
    }
  }

  lemma PopOther<K>(s: Arena<K>, l: K, m: K)
    requires QueueInv(s, m) && m != l && PopReady(s, l)
    ensures QueueInv(Pop(s, l), m)
  {
    PopEvents(s, l);
    QueueFrame(s, Pop(s, l), m);
  }

  lemma {:induction false} PopQueues<K>(s: Arena<K>, l: K)
    requires Queues(s) && PopReady(s, l)
    ensures Queues(Pop(s, l))
  {
    PopQueue(s, l);
    forall m | m in s.layout.queues && m != l ensures QueueInv(Pop(s, l), m) {
      PopOther(s, l, m);
    }
  }

  lemma PopKeepsInv<K>(s: Arena<K>, l: K)
    requires Inv(s) && l in s.layout.queues && s.layout.queues[l] != []
    ensures PopReady(s, l) && Inv(Pop(s, l))
    ensures forall i: nat :: SameEvent(s, Pop(s, l), i)
  {
    PopBase(s, l);
    PopEvents(s, l);
    PopQueues(s, l);
    PopCharges(s, l);
  }

  predicate Loaned<K>(s: Arena<K>, x: nat) {
    x < |s.layout.slots| == |s.layout.owner| && s.layout.owner[x].Borrowed?
  }

  lemma ReleaseBase<K>(s: Arena<K>, x: nat)
    requires Base(s) && Loaned(s, x)
    ensures Base(Release(s, x))
  {
    ReleaseKeepsSound(s.layout, x, Cleared(s.freeHead));
  }

  lemma {:induction false} ReleaseQueues<K>(s: Arena<K>, x: nat)
    requires Base(s) && Queues(s) && Loaned(s, x)
    ensures Queues(Release(s, x))
    ensures forall i: nat :: i != x ==> SameEvent(s, Release(s, x), i)
  {
    hide QueueInv, Charge;
    var t := Release(s, x);
    assert forall i: nat :: i != x ==> SameEvent(s, t, i);
    hide EventAt, SameEvent, Sound, Sized;
    forall l | l in t.layout.queues ensures QueueInv(t, l) {
      QueueMembers(s.layout, l);
      QueueFrame(s, t, l);
    }
  }

  /** Crediting an untracked realm credits nobody. */
  lemma CreditBack(held: multiset<Realm>, realm: Realm, tracked: nat)
    requires forall r :: r in held ==> r < tracked
    ensures held - Charge(Some(realm), tracked) == held - multiset{realm}
  {
  }

  lemma TakeAway(rest: multiset<Realm>, part: multiset<Realm>, whole: multiset<Realm>)
    requires rest + part == whole + multiset{}
    ensures whole - part == rest
  {
    assert whole == rest + part;
  }

  lemma ReleaseCharges<K>(s: Arena<K>, x: nat)
    requires Charged(s) && Loaned(s, x)
    ensures Charged(Release(s, x))
  {
    var h := Holders(s.layout);
    HeldByUpdate(h, s.tracked, x, None);
    assert Holders(Release(s, x).layout) == h[x := None];
    TakeAway(HeldBy(h[x := None], s.tracked), Charge(h[x], s.tracked), s.held);
  }

  lemma ReleaseKeepsInv<K>(s: Arena<K>, x: nat)
    requires Inv(s) && Loaned(s, x)
    ensures Inv(Release(s, x))
    ensures forall i: nat :: i != x ==> SameEvent(s, Release(s, x), i)
  {
    ReleaseBase(s, x);
    ReleaseQueues(s, x);
    ReleaseCharges(s, x);
  }

  lemma OpenBase<K>(s: Arena<K>, l: K, realm: Realm)
    requires Base(s) && l !in s.layout.queues
    ensures Base(Open(s, l, realm))
  {
    OpenKeepsSound(s.layout, l);
  }

  lemma OpenQueues<K>(s: Arena<K>, l: K, realm: Realm)
    requires Queues(s) && l !in s.layout.queues
    ensures Queues(Open(s, l, realm))
  {
    hide QueueInv;
    forall m | m in s.layout.queues || m == l ensures QueueInv(Open(s, l, realm), m) {
      OpenQueue(s, l, realm, m);
    }
  }

  lemma OpenQueue<K>(s: Arena<K>, l: K, realm: Realm, m: K)
    requires m == l || QueueInv(s, m)
    ensures QueueInv(Open(s, l, realm), m)
  {
    if m != l {
      QueueFrame(s, Open(s, l, realm), m);
    }
  }

  lemma {:induction false} OpenKeepsInv<K>(s: Arena<K>, l: K, realm: Realm)
    requires Inv(s) && l !in s.layout.queues
    ensures Inv(Open(s, l, realm))
  {
    OpenBase(s, l, realm);
    OpenQueues(s, l, realm);
    assert Holders(Open(s, l, realm).layout) == Holders(s.layout);
  }

  // ---- what the header fields say ----

  lemma FreeFacts<K>(s: Arena<K>)
    requires Inv(s)
    ensures s.freeHead == First(s.layout.free) && s.freeCount == |s.layout.free|
    ensures s.layout.free != [] ==> s.layout.free[0] < |s.layout.slots|
  {
    assert s.layout.free != [] ==> s.layout.free[0] in s.layout.free;
  }

  lemma QueueFacts<K>(s: Arena<K>, l: K)
    requires Inv(s) && l in s.layout.queues
    ensures var q := s.layout.queues[l];
            && l in s.headers && l in s.accepted && l in s.popped
            && s.headers[l].head == First(q) && s.headers[l].tail == Last(q) && s.headers[l].count == |q|
            && (q != [] ==> q[0] < |s.layout.slots| && q[|q| - 1] < |s.layout.slots|)
  {
    hide Sound, Sized, EventsOf, Charged;
    assert QueueInv(s, l);
    QueueMembers(s.layout, l);
    var q := s.layout.queues[l];
    assert q != [] ==> q[0] in q && q[|q| - 1] in q;
  }

  // ---- the initial arena ----

  function Range(lo: nat, n: nat): (r: seq<nat>)
    ensures forall i :: i in r <==> lo <= i < n
    ensures |r| == if lo < n then n - lo else 0
    decreases n - lo
  {
    if lo >= n then [] else [lo] + Range(lo + 1, n)
  }

  lemma {:induction false} RangeIsLinked(slots: seq<Slot>, lo: nat)
    requires forall i :: 0 <= i < |slots| ==> slots[i].next == if i + 1 < |slots| then Some(i + 1) else None
    ensures Linked(slots, Range(lo, |slots|))
    decreases |slots| - lo
  {
    if lo < |slots| {
      RangeIsLinked(slots, lo + 1);
      var rest := Range(lo + 1, |slots|);
      assert First(rest) == if lo + 1 < |slots| then Some(lo + 1) else None;
      assert ([lo] + rest)[1..] == rest && lo !in rest;
    }
  }

  lemma {:induction false} NothingHeld(h: seq<Option<Realm>>, tracked: nat)
    requires forall i :: 0 <= i < |h| ==> h[i] == None
    ensures HeldBy(h, tracked) == multiset{}
  {
    if h != [] {
      NothingHeld(h[1..], tracked);
    }
  }

  function FreeSlot(i: nat, n: nat): Slot {
    Cleared(if i + 1 < n then Some(i + 1) else None)
  }

  /** All `n` slots on the free chain, in order. */
  function EmptyArena<K>(n: nat, bytes: seq<Byte>, tracked: nat, perConn: nat): Arena<K> {
    Arena(Layout(seq(n, i requires 0 <= i < n => FreeSlot(i, n)), seq(n, _ => Free), Range(0, n), map[]), bytes, Some(0), n,
          map[], multiset{}, tracked, perConn, map[], map[])
  }

  lemma InitialArena<K>(n: nat, bytes: seq<Byte>, tracked: nat, perConn: nat)
    requires 1 <= n && |bytes| == n * SLOT_BYTES
    ensures Inv(EmptyArena<K>(n, bytes, tracked, perConn))
  {
    var s: Arena<K> := EmptyArena(n, bytes, tracked, perConn);
    RangeIsLinked(s.layout.slots, 0);
    NothingHeld(Holders(s.layout), s.tracked);
  }

  // ---- splitting one callback's bytes into slots ----

  function ChunkCount(n: nat): nat {
    Max((n + SLOT_BYTES - 1) / SLOT_BYTES, 1)
  }

  function Chunks(streamId: nat, data: seq<Byte>, isFin: bool, kind: RecvKind): seq<Event>
    decreases |data|
  {
    if |data| <= SLOT_BYTES then [Event(streamId, data, isFin, kind)]
    else [Event(streamId, data[..SLOT_BYTES], false, kind)] + Chunks(streamId, data[SLOT_BYTES..], isFin, kind)
  }

  function Bytes(events: seq<Event>): seq<Byte> {
    if events == [] then [] else events[0].data + Bytes(events[1..])
  }

  /** The split loses and reorders nothing, and fin lands on the last piece only. */
  lemma {:induction false} ChunksAreTheData(streamId: nat, data: seq<Byte>, isFin: bool, kind: RecvKind)
    ensures var c := Chunks(streamId, data, isFin, kind);
            && |c| == ChunkCount(|data|) && Bytes(c) == data
            && forall t :: 0 <= t < |c| ==>
                 && c[t].isFin == (isFin && t == |c| - 1) && c[t].streamId == streamId && c[t].kind == kind
                 && |c[t].data| <= SLOT_BYTES && (t < |c| - 1 ==> |c[t].data| == SLOT_BYTES)
    decreases |data|
  {
    var c := Chunks(streamId, data, isFin, kind);
    if |data| <= SLOT_BYTES {
      assert Bytes(c[1..]) == [];
    } else {
      ChunksAreTheData(streamId, data[SLOT_BYTES..], isFin, kind);
      assert c[1..] == Chunks(streamId, data[SLOT_BYTES..], isFin, kind);
      assert data == data[..SLOT_BYTES] + data[SLOT_BYTES..];
    }
  }

  /** An empty callback is one empty piece. */
  lemma NoDataIsOneChunk(streamId: nat, isFin: bool, kind: RecvKind)
    ensures Chunks(streamId, [], isFin, kind) == [Event(streamId, [], isFin, kind)] && ChunkCount(0) == 1
  {
  }

  lemma ChunkOfRest(data: seq<Byte>, k: nat)
    requires 0 < k && k * SLOT_BYTES <= |data|
    ensures data[SLOT_BYTES..][(k - 1) * SLOT_BYTES..Min((k - 1) * SLOT_BYTES + SLOT_BYTES, |data| - SLOT_BYTES)]
         == data[k * SLOT_BYTES..Min(k * SLOT_BYTES + SLOT_BYTES, |data|)]
  {
  }

  /** The k-th piece is the k-th slot-sized stretch of the input. */
  lemma {:induction false} ChunkAt(streamId: nat, data: seq<Byte>, isFin: bool, kind: RecvKind, k: nat)
    requires k < ChunkCount(|data|)
    ensures k * SLOT_BYTES <= |data| && |Chunks(streamId, data, isFin, kind)| == ChunkCount(|data|)
    ensures Chunks(streamId, data, isFin, kind)[k]
         == Event(streamId, data[k * SLOT_BYTES..Min(k * SLOT_BYTES + SLOT_BYTES, |data|)],
                  isFin && k == ChunkCount(|data|) - 1, kind)
    decreases |data|
  {
    ChunksAreTheData(streamId, data, isFin, kind);
    if |data| > SLOT_BYTES && k > 0 {
      ChunkAt(streamId, data[SLOT_BYTES..], isFin, kind, k - 1);
      ChunkOfRest(data, k);
    }
  }

  /** The bytes of a stretch of events are the bytes of its parts in order. */
  lemma {:induction false} BytesConcat(a: seq<Event>, b: seq<Event>)
    ensures Bytes(a + b) == Bytes(a) + Bytes(b)
  {
    if a == [] {
      assert a + b == b;
    } else {
      assert (a + b)[1..] == a[1..] + b;
      BytesConcat(a[1..], b);
    }
  }

  // ---- enqueue ----

  /** There is room for `n` more slots on queue `l`. */
  ghost predicate Room<K>(s: Arena<K>, l: K, n: nat) {
    && l in s.layout.queues && l in s.headers
    && n <= s.freeCount && s.headers[l].count + n <= s.perConn
  }

  /** Take a slot, fill it, link it: one chunk appended to queue `l`. */
  ghost function Append<K>(s: Arena<K>, l: K, e: Event): Arena<K>
    requires Inv(s) && Room(s, l, 1) && |e.data| <= SLOT_BYTES
    ensures Inv(Append(s, l, e))
  {
    AppendIsReady(s, l, e);
    var x := s.layout.free[0];
    var t := Fill(Take(s, s.headers[l].realm), x, e);
    LinkKeepsInv(t, l, x);
    Link(t, l, x)
  }

  lemma AppendIsReady<K>(s: Arena<K>, l: K, e: Event)
    requires Inv(s) && Room(s, l, 1) && |e.data| <= SLOT_BYTES
    ensures TakeReady(s)
    ensures var t := Take(s, s.headers[l].realm); var x := s.layout.free[0];
            Inv(t) && FillReady(t, x, e) && Inv(Fill(t, x, e)) && LinkReady(Fill(t, x, e), l, x)
  {
    TakeKeepsInv(s, s.headers[l].realm);
    var t := Take(s, s.headers[l].realm);
    var x := s.layout.free[0];
    FillKeepsInv(t, x, e);
    var u := Fill(t, x, e);
    QueueMembers(u.layout, l);
    var q := u.layout.queues[l];
    assert q != [] ==> q[|q| - 1] in q;
  }

  /** From `s` to `t` only queue `l` grew, by exactly `events`: each took one free slot and was
      charged to the queue's realm, and no other history changed. */
  ghost predicate Grew<K>(s: Arena<K>, t: Arena<K>, l: K, events: seq<Event>) {
    && l in s.headers && l in t.headers && l in s.accepted
    && t.accepted == s.accepted[l := s.accepted[l] + events] && t.popped == s.popped
    && t.freeCount + |events| == s.freeCount && t.layout.queues.Keys == s.layout.queues.Keys
    && t.headers[l].count == s.headers[l].count + |events| && t.headers[l].realm == s.headers[l].realm
    && t.held == WithMany(s.held, s.tracked, s.headers[l].realm, |events|)
    && t.perConn == s.perConn && t.tracked == s.tracked && |t.layout.slots| == |s.layout.slots|
  }

  /** Nothing the consumer holds on loan was touched. */
  ghost predicate LoansKept<K>(s: Arena<K>, t: Arena<K>) {
    forall i :: Loaned(s, i) ==> Loaned(t, i) && SameEvent(s, t, i)
  }

  /** The events fit into slots, and there are slots for them. */
  ghost predicate Appendable<K>(s: Arena<K>, l: K, events: seq<Event>) {
    Inv(s) && Room(s, l, |events|) && forall k :: 0 <= k < |events| ==> |events[k].data| <= SLOT_BYTES
  }

  /** Chunk after chunk. */
  ghost function AppendAll<K>(s: Arena<K>, l: K, events: seq<Event>): (t: Arena<K>)
    requires Appendable(s, l, events)
    ensures Inv(t) && Grew(s, t, l, events) && LoansKept(s, t)
    decreases |events|
  {
    if events == [] then
      GrewNothing(s, l);
      s
    else
      ShorterIsAppendable(s, l, events, |events| - 1);
      var t := AppendAll(s, l, events[..|events| - 1]);
      AppendLast(s, t, l, events);
      Append(t, l, events[|events| - 1])
  }

  lemma AppendLast<K>(s: Arena<K>, t: Arena<K>, l: K, events: seq<Event>)
    requires Appendable(s, l, events) && events != []
    requires Inv(t) && Grew(s, t, l, events[..|events| - 1]) && LoansKept(s, t)
    ensures var e := events[|events| - 1];
            && Room(t, l, 1) && |e.data| <= SLOT_BYTES
            && Inv(Append(t, l, e)) && Grew(s, Append(t, l, e), l, events) && LoansKept(s, Append(t, l, e))
  {
    RoomForOneMore(s, t, l, events);
    hide Inv, Grew, LoansKept, Append, Room;
    AppendStep(s, t, l, events, |events| - 1);
    assert events[..|events|] == events;
  }

  lemma ShorterIsAppendable<K>(s: Arena<K>, l: K, events: seq<Event>, n: nat)
    requires Appendable(s, l, events) && n <= |events|
    ensures Appendable(s, l, events[..n])
  {
    hide Inv;
  }

  lemma RoomForOneMore<K>(s: Arena<K>, t: Arena<K>, l: K, events: seq<Event>)
    requires Appendable(s, l, events) && events != [] && Grew(s, t, l, events[..|events| - 1])
    ensures Room(t, l, 1)
  {
    hide Inv;
  }

  /** One more chunk of a run of chunks. */
  lemma {:induction false} AppendAllStep<K>(s: Arena<K>, l: K, all: seq<Event>, k: nat)
    requires k < |all| && Appendable(s, l, all[..k + 1])
    ensures Appendable(s, l, all[..k])
    ensures var t := AppendAll(s, l, all[..k]);
            Inv(t) && Room(t, l, 1) && AppendAll(s, l, all[..k + 1]) == Append(t, l, all[k])
  {
    hide Inv, Grew, LoansKept;
    ShorterIsAppendable(s, l, all[..k + 1], k);
    assert all[..k + 1][..k] == all[..k];
    var t := AppendAll(s, l, all[..k]);
    RoomForOneMore(s, t, l, all[..k + 1]);
  }

  /** What one callback did: all its events joined queue `l`, chunk by chunk, or nothing moved. */
  ghost predicate Joined<K>(s: Arena<K>, t: Arena<K>, l: K, fits: bool, events: seq<Event>) {
    if fits then Appendable(s, l, events) && t == AppendAll(s, l, events) else t == s
  }

  lemma JoinedGrew<K>(s: Arena<K>, t: Arena<K>, l: K, events: seq<Event>)
    requires Joined(s, t, l, true, events)
    ensures Inv(t) && Grew(s, t, l, events) && LoansKept(s, t)
  {
    hide Grew, LoansKept, Inv;
  }

  /** An admitted callback is judged once, before its first chunk: it leaves its realm at most its chunk
      count minus one past the fair share, unless the arena was still below the watermark. */
  lemma AdmittedCallbackOvershootsLittle<K>(s: Arena<K>, t: Arena<K>, l: K, events: seq<Event>, watermark: nat)
    requires Joined(s, t, l, true, events) && events != [] && l in s.headers && s.headers[l].realm < s.tracked
    requires Admits(s.held, s.tracked, |s.layout.slots|, watermark, s.headers[l].realm)
    ensures var r := s.headers[l].realm;
            || |s.held| * 100 < |s.layout.slots| * watermark
            || t.held[r] <= |s.layout.slots| / Max(|Active(s.held)|, 1) + (|events| - 1)
  {
    hide Inv, Admits, Active, AppendAll;
    JoinedGrew(s, t, l, events);
    AdmittedBatchOvershootsLittle(s.held, s.tracked, |s.layout.slots|, watermark, s.headers[l].realm, |events|);
  }

  /** What the verdict on a callback of `n` chunks for queue `l` means. Accepted, it had the slots and its
      queue's bound leaves room; its realm ends at most `n - 1` slots past its share, or the arena was still
      below the watermark. Refused, one of the three was lacking. */
  ghost predicate Judged<K>(s: Arena<K>, t: Arena<K>, l: K, n: nat, ok: bool, watermark: nat)
    requires l in s.headers
  {
    var (queue, slots) := (s.headers[l], |s.layout.slots|);
    var contested := queue.realm < s.tracked && |s.held| * 100 >= slots * watermark;
    var share := slots / Max(|set r | r in s.held|, 1);
    && (ok ==>
          && n <= s.freeCount && queue.count + n <= s.perConn
          && (contested ==> t.held[queue.realm] <= share + n - 1))
    && (!ok ==>
          n > s.freeCount || queue.count + n > s.perConn || (contested && s.held[queue.realm] >= share))
  }

  ghost predicate Verdict<K>(s: Arena<K>, t: Arena<K>, l: K, events: seq<Event>, ok: bool, watermark: nat) {
    l in s.headers && Judged(s, t, l, |events|, ok, watermark)
  }

  /** The three tests and what an accepted callback adds are such a verdict. */
  lemma {:induction false} TestsAreTheVerdict<K>(s: Arena<K>, t: Arena<K>, l: K, events: seq<Event>, ok: bool, watermark: nat)
    requires l in s.headers && events != [] && Joined(s, t, l, ok, events)
    requires ok <==> && |events| <= s.freeCount && s.headers[l].count + |events| <= s.perConn
                     && Admits(s.held, s.tracked, |s.layout.slots|, watermark, s.headers[l].realm)
    ensures Verdict(s, t, l, events, ok, watermark)
  {
    hide Inv, AppendAll, LoansKept;
    assert Active(s.held) == set r | r in s.held;
    if ok {
      JoinedGrew(s, t, l, events);
      if s.headers[l].realm < s.tracked {
        AdmittedCallbackOvershootsLittle(s, t, l, events, watermark);
      }
    }
  }

  lemma NothingJoined<K>(s: Arena<K>, l: K, events: seq<Event>)
    ensures Joined(s, s, l, false, events)
  {
  }

  lemma GrewTwice<K>(s: Arena<K>, t: Arena<K>, u: Arena<K>, l: K, a: seq<Event>, b: seq<Event>)
    requires Grew(s, t, l, a) && Grew(t, u, l, b)
    ensures Grew(s, u, l, a + b)
  {
    assert s.accepted[l] + (a + b) == s.accepted[l] + a + b;
    WithManyAdds(s.held, s.tracked, s.headers[l].realm, |a|, |b|);
    hide WithMany;
  }

  lemma GrewNothing<K>(s: Arena<K>, l: K)
    requires Inv(s) && l in s.layout.queues
    ensures Grew(s, s, l, []) && LoansKept(s, s)
  {
    hide Inv;
    QueueFacts(s, l);
    assert s.accepted[l] + [] == s.accepted[l];
    WithManyAdds(s.held, s.tracked, s.headers[l].realm, 0, 0);
  }

  lemma GrewFacts<K>(s: Arena<K>, t: Arena<K>, l: K, e: Event)
    requires Grew(s, t, l, [e]) && l in s.layout.queues
    ensures l in t.layout.queues && l in t.headers && l in s.headers && t.freeCount == s.freeCount - 1
    ensures t.headers[l].count == s.headers[l].count + 1 && t.perConn == s.perConn
  {
  }

  /** One more chunk of a run of chunks. */
  lemma {:induction false} AppendStep<K>(s: Arena<K>, t: Arena<K>, l: K, all: seq<Event>, k: nat)
    requires Inv(t) && Room(t, l, 1) && k < |all| && |all[k].data| <= SLOT_BYTES
    requires Grew(s, t, l, all[..k]) && LoansKept(s, t)
    ensures Grew(s, Append(t, l, all[k]), l, all[..k + 1]) && LoansKept(s, Append(t, l, all[k]))
    ensures Grew(t, Append(t, l, all[k]), l, [all[k]])
  {
    hide *;
    AppendEffect(t, l, all[k]);
    AppendKeepsLoans(t, l, all[k]);
    GrewTwice(s, t, Append(t, l, all[k]), l, all[..k], [all[k]]);
    LoansTwice(s, t, Append(t, l, all[k]));
    assert all[..k + 1] == all[..k] + [all[k]];
  }

  /** `c` is what one callback brought; `remaining` of its chunks are still to be copied, from byte
      `offset` on, and there is room for them. */
  datatype Callback = Callback(streamId: nat, data: seq<Byte>, isFin: bool, kind: RecvKind)

  function ChunksOf(c: Callback): seq<Event> {
    Chunks(c.streamId, c.data, c.isFin, c.kind)
  }

  ghost predicate Copying<K>(s: Arena<K>, t: Arena<K>, l: K, c: Callback, remaining: nat, offset: nat) {
    && Inv(t) && |ChunksOf(c)| == ChunkCount(|c.data|) && remaining <= ChunkCount(|c.data|) && Room(t, l, remaining)
    && (remaining > 0 ==> offset == (ChunkCount(|c.data|) - remaining) * SLOT_BYTES <= |c.data|)
    && Appendable(s, l, ChunksOf(c)) && Copied(s, t, l, ChunksOf(c), |ChunksOf(c)| - remaining)
  }

  /** The first `k` chunks are in. */
  ghost predicate Copied<K>(s: Arena<K>, t: Arena<K>, l: K, all: seq<Event>, k: nat) {
    k <= |all| && Appendable(s, l, all[..k]) && t == AppendAll(s, l, all[..k])
  }

  /** The next chunk to copy. */
  function NextChunk(c: Callback, remaining: nat, offset: nat): Event
    requires offset <= |c.data|
  {
    Event(c.streamId, c.data[offset..Min(offset + SLOT_BYTES, |c.data|)], c.isFin && remaining == 1, c.kind)
  }

  lemma CopyStarts<K>(s: Arena<K>, l: K, c: Callback)
    requires Inv(s) && l in s.layout.queues && Room(s, l, ChunkCount(|c.data|))
    ensures Copying(s, s, l, c, ChunkCount(|c.data|), 0)
  {
    hide Inv;
    ChunksFit(c);
    assert ChunksOf(c)[..0] == [];
  }

  /** No chunk is larger than a slot. */
  lemma ChunksFit(c: Callback)
    ensures |ChunksOf(c)| == ChunkCount(|c.data|) && forall k :: 0 <= k < |ChunksOf(c)| ==> |ChunksOf(c)[k].data| <= SLOT_BYTES
  {
    ChunksAreTheData(c.streamId, c.data, c.isFin, c.kind);
    hide Chunks;
  }

  lemma {:induction false} CopyEnds<K>(s: Arena<K>, t: Arena<K>, l: K, c: Callback, offset: nat)
    requires Copying(s, t, l, c, 0, offset)
    ensures Joined(s, t, l, true, ChunksOf(c))
  {
    hide Inv, AppendAll;
    assert ChunksOf(c)[..|ChunksOf(c)|] == ChunksOf(c);
  }

  /** One pass of the copy loop. */
  lemma CopyStep<K>(s: Arena<K>, t: Arena<K>, l: K, c: Callback, remaining: nat, offset: nat)
    requires Copying(s, t, l, c, remaining, offset) && remaining > 0
    ensures offset <= |c.data| && Room(t, l, 1) && Inv(t)
    ensures var e := NextChunk(c, remaining, offset);
            && |e.data| <= SLOT_BYTES
            && Copying(s, Append(t, l, e), l, c, remaining - 1, Min(offset + SLOT_BYTES, |c.data|))
  {
    hide Inv, Grew, LoansKept, Append, AppendAll, Chunks;
    var k := ChunkCount(|c.data|) - remaining;
    ChunkAt(c.streamId, c.data, c.isFin, c.kind, k);
    ChunksFit(c);
    var e := NextChunk(c, remaining, offset);
    ShorterIsAppendable(s, l, ChunksOf(c), k + 1);
    AppendAllStep(s, l, ChunksOf(c), k);
    AppendEffect(t, l, e);
    GrewFacts(t, Append(t, l, e), l, e);
  }

  /** What one appended chunk changes: one slot moves from the free chain to the queue, whose
      history grows by the chunk. */
  lemma FilledEffect<K>(s: Arena<K>, realm: Realm, e: Event)
    requires Inv(s) && TakeReady(s) && FillReady(Take(s, realm), s.layout.free[0], e) && Inv(Take(s, realm))
    ensures var x := s.layout.free[0]; var u := Fill(Take(s, realm), x, e);
            && EventAt(u.layout.slots, u.bytes, x) == e
            && u.accepted == s.accepted && u.popped == s.popped && u.headers == s.headers && u.freeCount + 1 == s.freeCount
            && u.held == s.held + Charge(Some(realm), s.tracked) && u.perConn == s.perConn && u.tracked == s.tracked
            && u.layout.queues == s.layout.queues && |u.layout.slots| == |s.layout.slots|
  {
    FillEvents(Take(s, realm), s.layout.free[0], e);
    hide Inv, Base, Charge, SameEvent, EventAt, Blit;
  }

  lemma LinkEffect<K>(u: Arena<K>, l: K, x: nat)
    requires LinkReady(u, l, x)
    ensures var v := Link(u, l, x);
            && v.accepted == u.accepted[l := u.accepted[l] + [EventAt(u.layout.slots, u.bytes, x)]]
            && l in u.accepted && l in v.headers && v.popped == u.popped && v.freeCount == u.freeCount
            && v.layout.queues.Keys == u.layout.queues.Keys
            && v.headers[l].count == u.headers[l].count + 1 && v.headers[l].realm == u.headers[l].realm
            && v.held == u.held && v.perConn == u.perConn && v.tracked == u.tracked && |v.layout.slots| == |u.layout.slots|
  {
    hide EventAt;
  }

  lemma AppendEffect<K>(s: Arena<K>, l: K, e: Event)
    requires Inv(s) && Room(s, l, 1) && |e.data| <= SLOT_BYTES
    ensures Grew(s, Append(s, l, e), l, [e])
  {
    hide Inv, FillReady, Take, Fill, Link, WithMany, Charge, EventAt, SameEvent;
    AppendIsReady(s, l, e);
    var (x, realm) := (s.layout.free[0], s.headers[l].realm);
    TakeKeepsInv(s, realm);
    FilledEffect(s, realm, e);
    LinkEffect(Fill(Take(s, realm), x, e), l, x);
    ChargeIsOne(s.held, s.tracked, realm);
  }

  lemma ChargeIsOne(held: multiset<Realm>, tracked: nat, realm: Realm)
    ensures held + Charge(Some(realm), tracked) == WithMany(held, tracked, realm, 1)
  {
  }

  /** The slots on loan other than `x` stay on loan and keep their chunk. */
  ghost predicate LoansKeptBut<K>(s: Arena<K>, t: Arena<K>, x: nat) {
    forall i :: Loaned(s, i) && i != x ==> Loaned(t, i) && SameEvent(s, t, i)
  }

  lemma TakeLoans<K>(s: Arena<K>, realm: Realm)
    requires TakeReady(s)
    ensures LoansKept(s, Take(s, realm)) && !Loaned(s, s.layout.free[0])
  {
    EventsIgnoreLinks(s.layout.slots, Take(s, realm).layout.slots, s.bytes);
  }

  lemma FillLoans<K>(s: Arena<K>, x: nat, e: Event)
    requires Base(s) && FillReady(s, x, e)
    ensures LoansKeptBut(s, Fill(s, x, e), x)
  {
    FillEvents(s, x, e);
  }

  lemma LinkLoans<K>(s: Arena<K>, l: K, x: nat)
    requires LinkReady(s, l, x)
    ensures LoansKeptBut(s, Link(s, l, x), x)
  {
    LinkEvents(s, l, x);
  }

  lemma LoansChain<K>(s: Arena<K>, t: Arena<K>, u: Arena<K>, v: Arena<K>, x: nat)
    requires LoansKept(s, t) && LoansKeptBut(t, u, x) && LoansKeptBut(u, v, x) && !Loaned(s, x)
    ensures LoansKept(s, v)
  {
    forall i | Loaned(s, i) ensures Loaned(v, i) && SameEvent(s, v, i) {
      assert Loaned(t, i) && SameEvent(s, t, i);
      assert Loaned(u, i) && SameEvent(t, u, i);
    }
  }

  lemma AppendKeepsLoans<K>(s: Arena<K>, l: K, e: Event)
    requires Inv(s) && Room(s, l, 1) && |e.data| <= SLOT_BYTES
    ensures LoansKept(s, Append(s, l, e))
  {
    AppendIsReady(s, l, e);
    var x := s.layout.free[0];
    var t := Take(s, s.headers[l].realm);
    var u := Fill(t, x, e);
    TakeLoans(s, s.headers[l].realm);
    FillLoans(t, x, e);
    LinkLoans(u, l, x);
    LoansChain(s, t, u, Append(s, l, e), x);
  }

  lemma LoansTwice<K>(s: Arena<K>, t: Arena<K>, u: Arena<K>)
    requires LoansKept(s, t) && LoansKept(t, u)
    ensures LoansKept(s, u)
  {
    forall i | Loaned(s, i) ensures Loaned(u, i) && SameEvent(s, u, i) {
      assert Loaned(t, i) && SameEvent(s, t, i);
    }
  }

  lemma LoansKeptSelf<K>(s: Arena<K>)
    ensures LoansKept(s, s)
  {
  }

  /** What a pop takes out was not on loan before. */
  lemma LoansThroughPop<K>(s: Arena<K>, t: Arena<K>, u: Arena<K>, l: K, r: Option<nat>)
    requires LoansKept(s, t) && Inv(t) && Popped(t, u, l, r)
    ensures LoansKept(s, u) && (r.Some? ==> !Loaned(s, r.value))
  {
    if r.Some? {
      LoansTwice(s, t, u);
      QueueMembers(t.layout, l);
      assert t.layout.queues[l][0] in t.layout.queues[l];
      assert !Loaned(t, r.value);
    }
  }

  /** Giving back what was popped since leaves the older loans alone. */
  lemma LoansThroughRelease<K>(s: Arena<K>, t: Arena<K>, x: nat)
    requires LoansKept(s, t) && Loaned(t, x) && !Loaned(s, x)
    ensures LoansKept(s, Release(t, x))
  {
    forall i | Loaned(s, i) ensures Loaned(Release(t, x), i) && SameEvent(s, Release(t, x), i) {
      assert Loaned(t, i) && SameEvent(s, t, i) && i != x;
    }
  }

  // ---- giving a queue back ----

  /** What giving queue `l` back does: it is empty, everything it accepted counts as popped, nothing else
      has changed in the books, and what is on loan stays on loan with its bytes. */
  ghost predicate GaveBack<K>(s: Arena<K>, t: Arena<K>, l: K) {
    && t.layout.queues.Keys == s.layout.queues.Keys && l in t.layout.queues && t.layout.queues[l] == []
    && l in s.accepted && t.accepted == s.accepted && t.popped == s.popped[l := s.accepted[l]]
    && LoansKept(s, t)
  }

  /** Pop and release until the queue is empty. */
  ghost function Discard<K>(s: Arena<K>, l: K): (t: Arena<K>)
    requires Inv(s) && l in s.layout.queues
    ensures Inv(t) && GaveBack(s, t, l)
    decreases |s.layout.queues[l]|
  {
    if s.layout.queues[l] == [] then
      NothingToGiveBack(s, l);
      s
    else
      GiveOneBack(s, l);
      var u := Release(Pop(s, l), s.layout.queues[l][0]);
      var t := Discard(u, l);
      GaveBackMore(s, u, t, l);
      t
  }

  lemma NothingToGiveBack<K>(s: Arena<K>, l: K)
    requires Inv(s) && l in s.layout.queues && s.layout.queues[l] == []
    ensures GaveBack(s, s, l)
  {
    hide LoansKept, Inv;
    PoppedIsPrefixOfAccepted(s, l);
    LoansKeptSelf(s);
    assert s.popped[l := s.accepted[l]] == s.popped;
  }

  /** One pop and release: still sound, one slot shorter, and no older loan touched. */
  lemma GiveOneBack<K>(s: Arena<K>, l: K)
    requires Inv(s) && l in s.layout.queues && s.layout.queues[l] != []
    ensures PopReady(s, l) && Loaned(Pop(s, l), s.layout.queues[l][0])
    ensures var u := Release(Pop(s, l), s.layout.queues[l][0]);
            && Inv(u) && u.layout.queues == s.layout.queues[l := s.layout.queues[l][1..]] && u.layout.queues.Keys == s.layout.queues.Keys
            && SameBut(s, u, l) && LoansKept(s, u)
  {
    QueueFacts(s, l);
    SameButSelf(s, l);
    LoansKeptSelf(s);
    PopIsPopped(s, l);
    PopBooks(s, s, l);
    var x := s.layout.queues[l][0];
    LoansThroughPop(s, s, Pop(s, l), l, Some(x));
    ReleaseBooks(s, Pop(s, l), l, x);
    LoansThroughRelease(s, Pop(s, l), x);
    ReleaseKeepsInv(Pop(s, l), x);
    hide Inv, PopReady, Pop, Release, LoansKept, Loaned, SameBut;
  }

  lemma GaveBackMore<K>(s: Arena<K>, u: Arena<K>, t: Arena<K>, l: K)
    requires SameBut(s, u, l) && LoansKept(s, u) && u.layout.queues.Keys == s.layout.queues.Keys && GaveBack(u, t, l)
    ensures GaveBack(s, t, l)
  {
    LoansTwice(s, u, t);
    hide LoansKept;
  }

  /** Several queues, one after the other. */
  ghost function DiscardAll<K>(s: Arena<K>, ls: seq<K>): Arena<K>
    requires Inv(s) && HasQueues(s, ls)
    decreases |ls|
  {
    if ls == [] then s
    else
      StillHasQueues(s, ls);
      DiscardAll(Discard(s, ls[0]), ls[1..])
  }

  ghost predicate HasQueues<K>(s: Arena<K>, ls: seq<K>) {
    forall l :: l in ls ==> l in s.layout.queues
  }

  lemma StillHasQueues<K>(s: Arena<K>, ls: seq<K>)
    requires Inv(s) && HasQueues(s, ls) && ls != []
    ensures ls[0] in s.layout.queues && HasQueues(Discard(s, ls[0]), ls[1..])
  {
    hide Inv, Discard, LoansKept;
    assert ls[0] in ls;
  }

  /** What that does to the books. */
  lemma {:induction false} DiscardAllBooks<K>(s: Arena<K>, ls: seq<K>)
    requires Inv(s) && HasQueues(s, ls)
    ensures var t := DiscardAll(s, ls);
            && Inv(t) && t.layout.queues.Keys == s.layout.queues.Keys
            && t.accepted == s.accepted && t.popped.Keys == s.popped.Keys && LoansKept(s, t)
            && forall l :: l in s.popped ==> t.popped[l] == if l in ls && l in s.accepted then s.accepted[l] else s.popped[l]
    decreases |ls|
  {
    hide Inv, Discard, LoansKept, HasQueues;
    if ls == [] {
      LoansKeptSelf(s);
    } else {
      StillHasQueues(s, ls);
      QueueFacts(s, ls[0]);
      var u := Discard(s, ls[0]);
      DiscardAllBooks(u, ls[1..]);
      LoansTwice(s, u, DiscardAll(s, ls));
      assert ls == [ls[0]] + ls[1..];
    }
  }

  lemma HasBoth<K>(s: Arena<K>, ls: seq<K>, l: K)
    requires HasQueues(s, ls + [l])
    ensures HasQueues(s, ls) && l in s.layout.queues
  {
    assert forall m :: m in ls ==> m in ls + [l];
    assert l in ls + [l];
  }

  /** One more queue at the end. */
  lemma {:induction false} DiscardAllSnoc<K>(s: Arena<K>, ls: seq<K>, l: K)
    requires Inv(s) && HasQueues(s, ls + [l])
    ensures HasQueues(s, ls) && Inv(DiscardAll(s, ls)) && l in DiscardAll(s, ls).layout.queues
    ensures DiscardAll(s, ls + [l]) == Discard(DiscardAll(s, ls), l)
    decreases |ls|
  {
    hide Inv, Discard, HasQueues, LoansKept, GaveBack;
    HasBoth(s, ls, l);
    DiscardAllBooks(s, ls);
    if ls == [] {
      assert ls + [l] == [l] && [l][1..] == [];
    } else {
      assert (ls + [l])[1..] == ls[1..] + [l];
      StillHasQueues(s, ls + [l]);
      DiscardAllSnoc(Discard(s, ls[0]), ls[1..], l);
    }
  }

  // ---- every run of the arena ----

  datatype Move<K> =
    | OpenQueue(l: K, realm: Realm)
    | Enqueue(l: K, callback: Callback, ok: bool)
    | PopOne(l: K, popped: Option<nat>)
    | GiveSlot(slot: nat)
    | DropQueue(l: K)

  /** `t` is the arena after one call on `s`: what the methods of the arena promise. */
  ghost predicate Moves<K>(s: Arena<K>, m: Move<K>, t: Arena<K>, watermark: nat) {
    match m
    case OpenQueue(l, realm) => l !in s.layout.queues && t == Open(s, l, realm)
    case Enqueue(l, c, ok) =>
      && Joined(s, t, l, ok, ChunksOf(c)) && Verdict(s, t, l, ChunksOf(c), ok, watermark)
    case PopOne(l, r) => Popped(s, t, l, r)
    case GiveSlot(x) => Loaned(s, x) && t == Release(s, x)
    case DropQueue(l) => Inv(s) && l in s.layout.queues && t == Discard(s, l)
  }

  /** `states[i + 1]` is the arena after `moves[i]`. */
  ghost predicate Runs<K>(states: seq<Arena<K>>, moves: seq<Move<K>>, watermark: nat) {
    |states| == |moves| + 1 && forall i :: 0 <= i < |moves| ==> Moves(states[i], moves[i], states[i + 1], watermark)
  }

  /** A callback for `realm` has at most `batch` chunks, and at or above the watermark at least `k` realms hold slots. */
  ghost predicate Contested<K>(s: Arena<K>, m: Move<K>, watermark: nat, realm: Realm, k: nat, batch: nat) {
    m.Enqueue? && m.l in s.headers && s.headers[m.l].realm == realm ==>
      && 1 <= |ChunksOf(m.callback)| <= batch
      && (|s.held| * 100 >= |s.layout.slots| * watermark ==> |set r | r in s.held| >= k)
  }

  lemma {:induction false} DiscardHoldsLess<K>(s: Arena<K>, l: K, realm: Realm)
    requires Inv(s) && l in s.layout.queues
    ensures var t := Discard(s, l);
            t.held[realm] <= s.held[realm] && t.tracked == s.tracked && |t.layout.slots| == |s.layout.slots|
    decreases |s.layout.queues[l]|
  {
    hide LoansKept, SameBut, GaveBack, Inv;
    if s.layout.queues[l] != [] {
      GiveOneBack(s, l);
      DiscardHoldsLess(Release(Pop(s, l), s.layout.queues[l][0]), l, realm);
    }
  }

  /** One call: the arena keeps its size, and `realm` stays within its share. */
  lemma {:induction false} MoveStaysWithinShare<K>(s: Arena<K>, m: Move<K>, t: Arena<K>, watermark: nat, realm: Realm, k: nat, batch: nat)
    requires Moves(s, m, t, watermark) && realm < s.tracked && k > 0 && Contested(s, m, watermark, realm, k, batch)
    requires WithinShare(s.held[realm], |s.layout.slots|, watermark, k, batch)
    ensures WithinShare(t.held[realm], |s.layout.slots|, watermark, k, batch)
    ensures t.tracked == s.tracked && |t.layout.slots| == |s.layout.slots|
  {
    hide Inv, Discard, LoansKept, AppendAll, Chunks;
    match m
    case Enqueue(l, c, ok) =>
      if ok {
        JoinedGrew(s, t, l, ChunksOf(c));
        HoldingIsPart(s.held, realm);
        if s.headers[l].realm == realm && |s.held| * 100 >= |s.layout.slots| * watermark {
          SharesShrink(|s.layout.slots|, k, |set r | r in s.held|);
        }
      }
    case DropQueue(l) => DiscardHoldsLess(s, l, realm);
    case _ =>
  }

  /** Over every run of the arena: while at least `k` realms hold slots whenever `realm` asks above the
      watermark, `realm` never gets past the larger of the watermark and a `k`-th of the slots by more
      than a callback's chunks less one. */
  lemma {:induction false} RunStaysWithinShare<K>(states: seq<Arena<K>>, moves: seq<Move<K>>, watermark: nat, realm: Realm, k: nat, batch: nat)
    requires Runs(states, moves, watermark) && realm < states[0].tracked && k > 0
    requires forall i :: 0 <= i < |moves| ==> Contested(states[i], moves[i], watermark, realm, k, batch)
    requires WithinShare(states[0].held[realm], |states[0].layout.slots|, watermark, k, batch)
    ensures WithinShare(states[|moves|].held[realm], |states[0].layout.slots|, watermark, k, batch)
    ensures states[|moves|].tracked == states[0].tracked && |states[|moves|].layout.slots| == |states[0].layout.slots|
    decreases |moves|
  {
    hide Moves, Contested, WithinShare;
    if moves != [] {
      var n := |moves| - 1;
      RunStaysWithinShare(states[..n + 1], moves[..n], watermark, realm, k, batch);
      MoveStaysWithinShare(states[n], moves[n], states[n + 1], watermark, realm, k, batch);
    }
  }

  // ---- consequences of the invariant ----

  /** No slot is ever lost: each one is on the free chain, on exactly one queue, or on loan. */
  lemma EverySlotHasOnePlace<K>(s: Arena<K>, i: nat)
    requires Inv(s) && i < |s.layout.slots|
    ensures s.layout.owner[i].Free? <==> i in s.layout.free
    ensures forall l :: l in s.layout.queues ==> (s.layout.owner[i] == Queued(l) <==> i in s.layout.queues[l])
    ensures i in s.layout.free || Loaned(s, i) || exists l :: l in s.layout.queues && i in s.layout.queues[l]
  {
    forall l | l in s.layout.queues ensures s.layout.owner[i] == Queued(l) <==> i in s.layout.queues[l] {
      assert Chain(s.layout, Queued(l), s.layout.queues[l]);
    }
    if s.layout.owner[i].Queued? {
      assert s.layout.owner[i].queue in s.layout.queues;
    }
  }

  /** What a consumer has popped from a queue is, byte for byte, the front of what was accepted. */
  lemma PoppedIsPrefixOfAccepted<K>(s: Arena<K>, l: K)
    requires Inv(s) && l in s.layout.queues
    ensures l in s.accepted && l in s.popped && s.popped[l] <= s.accepted[l]
    ensures Bytes(s.popped[l]) <= Bytes(s.accepted[l])
    ensures s.layout.queues[l] == [] ==> s.popped[l] == s.accepted[l]
  {
    assert QueueInv(s, l);
    BytesConcat(s.popped[l], EventsOf(s.layout.slots, s.bytes, s.layout.queues[l]));
  }

  /** The slots charged to one realm. */
  ghost function SlotsOf(h: seq<Option<Realm>>, realm: Realm): set<nat> {
    set i | 0 <= i < |h| && h[i] == Some(realm)
  }

  /** The charge of a tracked realm is the number of slots it holds. */
  lemma {:induction false} HeldIsSlotCount(h: seq<Option<Realm>>, tracked: nat, realm: Realm)
    ensures HeldBy(h, tracked)[realm] == if realm < tracked then |SlotsOf(h, realm)| else 0
    decreases |h|
  {
    if h == [] {
      assert SlotsOf(h, realm) == {};
    } else {
      var n := |h| - 1;
      HeldIsSlotCount(h[..n], tracked, realm);
      HeldByAppend(h[..n], h[n], tracked);
      SlotsOfAppend(h[..n], h[n], realm);
      assert h == h[..n] + [h[n]];
    }
  }

  lemma SlotsOfAppend(h: seq<Option<Realm>>, v: Option<Realm>, realm: Realm)
    ensures |SlotsOf(h + [v], realm)| == |SlotsOf(h, realm)| + if v == Some(realm) then 1 else 0
  {
    var extra := if v == Some(realm) then {|h|} else {};
    assert SlotsOf(h + [v], realm) == SlotsOf(h, realm) + extra;
  }

  lemma {:induction false} HeldByAppend(h: seq<Option<Realm>>, v: Option<Realm>, tracked: nat)
    ensures HeldBy(h + [v], tracked) == HeldBy(h, tracked) + Charge(v, tracked)
  {
    if h == [] {
      assert h + [v] == [v];
    } else {
      assert (h + [v])[1..] == h[1..] + [v];
      HeldByAppend(h[1..], v, tracked);
    }
  }

  /** The realm accounting cannot leak: every tracked realm is charged exactly for the slots that
      are out of the free chain in its name, and a realm without one is always admitted. */
  lemma ChargesMatchHoldings<K>(s: Arena<K>, realm: Realm, watermark: nat)
    requires Inv(s)
    ensures s.held[realm] == if realm < s.tracked then |SlotsOf(Holders(s.layout), realm)| else 0
    ensures |s.held| <= |s.layout.slots|
    ensures SlotsOf(Holders(s.layout), realm) == {} ==>
              Admits(s.held, s.tracked, |s.layout.slots|, watermark, realm)
  {
    HeldIsSlotCount(Holders(s.layout), s.tracked, realm);
    HeldAtMostSlots(Holders(s.layout), s.tracked);
    if realm !in s.held {
      NewcomerNeverRefused(s.held, s.tracked, |s.layout.slots|, watermark, realm);
    }
  }
}
