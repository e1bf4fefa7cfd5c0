/** Pure theory of the shared receive arena: one array of slots threaded into a free chain and
    one chain per connection queue, with some slots borrowed by the consumer. `K` names a queue. */
module SlotChains {
  import opened Options
  import opened RealmQuota

  type Byte = x: int | 0 <= x < 256

  const SLOT_BYTES: nat := 2048

  datatype RecvKind = Data | StreamReset | StopSending

  datatype Slot = Slot(streamId: nat, len: nat, isFin: bool, kind: RecvKind, realm: Realm, next: Option<nat>)

  /** Who a slot belongs to. */
  datatype Place<K> = Free | Queued(queue: K) | Borrowed

  datatype Layout<K> = Layout(slots: seq<Slot>, owner: seq<Place<K>>, free: seq<nat>, queues: map<K, seq<nat>>)

  function First(q: seq<nat>): Option<nat> {
    if q == [] then None else Some(q[0])
  }

  function Last(q: seq<nat>): Option<nat> {
    if q == [] then None else Some(q[|q| - 1])
  }

  /** `q` is an acyclic chain through the `next` links, ending in null. */
  ghost predicate Linked(slots: seq<Slot>, q: seq<nat>) {
    q != [] ==>
      && q[0] < |slots| && q[0] !in q[1..]
      && slots[q[0]].next == First(q[1..])
      && Linked(slots, q[1..])
  }

  /** The members of `q` are exactly the slots of one owner. */
  ghost predicate Owns<K>(owner: seq<Place<K>>, place: Place<K>, q: seq<nat>) {
    && (forall i :: i in q ==> i < |owner| && owner[i] == place)
    && (forall i :: 0 <= i < |owner| && owner[i] == place ==> i in q)
  }

  /** A chain does not notice changes to slots that are not on it. */
  lemma {:induction false} LinkedFrame(slots: seq<Slot>, slots': seq<Slot>, q: seq<nat>)
    requires Linked(slots, q) && |slots'| == |slots|
    requires forall i :: i in q && i < |slots| ==> slots'[i].next == slots[i].next
    ensures Linked(slots', q)
  {
    if q != [] {
      LinkedFrame(slots, slots', q[1..]);
    }
  }

  lemma {:induction false} LinkedInRange(slots: seq<Slot>, q: seq<nat>)
    requires Linked(slots, q)
    ensures forall i :: i in q ==> i < |slots|
  {
    if q != [] {
      assert q == [q[0]] + q[1..];
      LinkedInRange(slots, q[1..]);
    }
  }

  /** Linking a slot behind the last one. */
  lemma {:induction false} LinkedAppend(slots: seq<Slot>, slots': seq<Slot>, q: seq<nat>, x: nat)
    requires Linked(slots, q) && |slots'| == |slots| && x < |slots| && x !in q
    requires slots'[x].next == None
    requires forall i :: i in q && i < |slots| ==>
               slots'[i].next == if Last(q) == Some(i) then Some(x) else slots[i].next
    ensures Linked(slots', q + [x])
  {
    if q == [] {
      assert q + [x] == [x];
    } else {
      assert (q + [x])[1..] == q[1..] + [x];
      assert q[0] in q;
      if |q| > 1 {
        assert q[|q| - 1] == q[1..][|q| - 2];
        assert q[|q| - 1] in q[1..];
      } else {
        assert q[1..] == [] && q[1..] + [x] == [x];
      }
      LinkedAppend(slots, slots', q[1..], x);
    }
  }

  /** One chain together with its ownership. */
  ghost predicate Chain<K>(a: Layout<K>, place: Place<K>, q: seq<nat>) {
    Linked(a.slots, q) && Owns(a.owner, place, q)
  }

  /** The partition: the free chain, every queue and the borrowed slots cover all slots, and no
      slot is in two of them. */
  ghost predicate Sound<K>(a: Layout<K>) {
    && |a.owner| == |a.slots|
    && Chain(a, Free, a.free)
    && (forall l :: l in a.queues ==> Chain(a, Queued(l), a.queues[l]))
    && (forall i :: 0 <= i < |a.owner| && a.owner[i].Queued? ==> a.owner[i].queue in a.queues)
    && (forall i :: 0 <= i < |a.owner| && a.owner[i].Borrowed? ==> a.slots[i].next == None)
  }

  /** Other chains do not notice a change of hands of slot `x`. */
  lemma ChainFrame<K>(a: Layout<K>, b: Layout<K>, x: nat, place: Place<K>, q: seq<nat>)
    requires |a.owner| == |a.slots| == |b.slots| == |b.owner| && Chain(a, place, q)
    requires x < |a.owner| && a.owner[x] != place && b.owner == a.owner[x := b.owner[x]] && b.owner[x] != place
    requires forall i :: 0 <= i < |a.owner| && a.owner[i] == place ==> b.slots[i].next == a.slots[i].next
    ensures Chain(b, place, q)
  {
    LinkedFrame(a.slots, b.slots, q);
  }

  lemma ChainTail<K>(a: Layout<K>, b: Layout<K>, place: Place<K>, q: seq<nat>)
    requires |a.owner| == |a.slots| == |b.slots| == |b.owner| && Chain(a, place, q) && q != []
    requires b.owner == a.owner[q[0] := b.owner[q[0]]] && b.owner[q[0]] != place
    requires b.slots == a.slots[q[0] := b.slots[q[0]]]
    ensures Chain(b, place, q[1..])
  {
    LinkedFrame(a.slots, b.slots, q[1..]);
    assert forall i :: i in q[1..] ==> i in q;
    forall i | 0 <= i < |b.owner| && b.owner[i] == place ensures i in q[1..] {
      assert i in q && i != q[0];
    }
  }

  lemma ChainPrepend<K>(a: Layout<K>, b: Layout<K>, place: Place<K>, q: seq<nat>, x: nat)
    requires |a.owner| == |a.slots| == |b.slots| == |b.owner| && Chain(a, place, q)
    requires x < |a.owner| && a.owner[x] != place && b.owner == a.owner[x := place]
    requires b.slots == a.slots[x := b.slots[x]] && b.slots[x].next == First(q)
    ensures Chain(b, place, [x] + q)
  {
    var r := [x] + q;
    assert r[1..] == q;
    LinkedFrame(a.slots, b.slots, q);
    forall i | 0 <= i < |b.owner| && b.owner[i] == place ensures i in r {
      assert i == x || i in q;
    }
  }

  lemma ChainAppend<K>(a: Layout<K>, b: Layout<K>, place: Place<K>, q: seq<nat>, x: nat)
    requires |a.owner| == |a.slots| == |b.slots| == |b.owner| && Chain(a, place, q)
    requires x < |a.owner| && a.owner[x] != place && b.owner == a.owner[x := place]
    requires b.slots[x].next == None
    requires forall i :: i in q && i < |a.slots| ==>
               b.slots[i].next == if Last(q) == Some(i) then Some(x) else a.slots[i].next
    ensures Chain(b, place, q + [x])
  {
    LinkedAppend(a.slots, b.slots, q, x);
    forall i | 0 <= i < |b.owner| && b.owner[i] == place ensures i in q + [x] {
      assert i == x || i in q;
    }
  }

  function TakeLayout<K>(a: Layout<K>, s: Slot): Layout<K>
    requires a.free != [] && a.free[0] < |a.slots| == |a.owner|
  {
    var x := a.free[0];
    Layout(a.slots[x := s], a.owner[x := Borrowed], a.free[1..], a.queues)
  }

  /** Taking the head of the free chain. */
  lemma TakeKeepsSound<K>(a: Layout<K>, s: Slot)
    requires Sound(a) && a.free != [] && s.next == None
    ensures a.free[0] < |a.slots| && a.owner[a.free[0]] == Free
    ensures a.slots[a.free[0]].next == First(a.free[1..])
    ensures Sound(TakeLayout(a, s))
  {
    var b := TakeLayout(a, s);
    ChainTail(a, b, Free, a.free);
    forall l | l in b.queues ensures Chain(b, Queued(l), b.queues[l]) {
      ChainFrame(a, b, a.free[0], Queued(l), a.queues[l]);
    }
  }

  function AppendLayout<K>(a: Layout<K>, l: K, x: nat): Layout<K>
    requires l in a.queues && x < |a.slots| == |a.owner|
    requires a.queues[l] != [] ==> a.queues[l][|a.queues[l]| - 1] < |a.slots|
  {
    var q := a.queues[l];
    var slots := if q == [] then a.slots
                 else a.slots[q[|q| - 1] := a.slots[q[|q| - 1]].(next := Some(x))];
    Layout(slots, a.owner[x := Queued(l)], a.free, a.queues[l := q + [x]])
  }

  /** Linking a borrowed slot behind the tail of one queue. */
  lemma AppendKeepsSound<K>(a: Layout<K>, l: K, x: nat)
    requires Sound(a) && l in a.queues && x < |a.slots| && a.owner[x] == Borrowed
    ensures a.queues[l] != [] ==> a.queues[l][|a.queues[l]| - 1] < |a.slots|
    ensures Sound(AppendLayout(a, l, x))
  {
    var q := a.queues[l];
    assert Chain(a, Queued(l), q);
    assert q != [] ==> q[|q| - 1] in q;
    var b := AppendLayout(a, l, x);
    ChainFrame(a, b, x, Free, a.free);
    ChainAppend(a, b, Queued(l), q, x);
    forall m | m in b.queues ensures Chain(b, Queued(m), b.queues[m]) {
      if m != l {
        ChainFrame(a, b, x, Queued(m), a.queues[m]);
      }
    }
  }

  function PopLayout<K>(a: Layout<K>, l: K): Layout<K>
    requires l in a.queues && a.queues[l] != [] && a.queues[l][0] < |a.slots| == |a.owner|
  {
    var q := a.queues[l];
    Layout(a.slots[q[0] := a.slots[q[0]].(next := None)], a.owner[q[0] := Borrowed], a.free, a.queues[l := q[1..]])
  }

  /** Unlinking the head of one queue hands its slot to the consumer. */
  lemma PopKeepsSound<K>(a: Layout<K>, l: K)
    requires Sound(a) && l in a.queues && a.queues[l] != []
    ensures a.queues[l][0] < |a.slots| && a.owner[a.queues[l][0]] == Queued(l)
    ensures a.slots[a.queues[l][0]].next == First(a.queues[l][1..])
    ensures Sound(PopLayout(a, l))
  {
    var q := a.queues[l];
    assert Chain(a, Queued(l), q);
    var b := PopLayout(a, l);
    ChainFrame(a, b, q[0], Free, a.free);
    ChainTail(a, b, Queued(l), q);
    forall m | m in b.queues ensures Chain(b, Queued(m), b.queues[m]) {
      if m != l {
        ChainFrame(a, b, q[0], Queued(m), a.queues[m]);
      }
    }
  }

  function ReleaseLayout<K>(a: Layout<K>, x: nat, s: Slot): Layout<K>
    requires x < |a.slots| == |a.owner|
  {
    Layout(a.slots[x := s], a.owner[x := Free], [x] + a.free, a.queues)
  }

  /** Giving a borrowed slot back puts it at the head of the free chain. */
  lemma ReleaseKeepsSound<K>(a: Layout<K>, x: nat, s: Slot)
    requires Sound(a) && x < |a.slots| && a.owner[x] == Borrowed && s.next == First(a.free)
    ensures Sound(ReleaseLayout(a, x, s))
  {
    var b := ReleaseLayout(a, x, s);
    ChainPrepend(a, b, Free, a.free, x);
    forall l | l in b.queues ensures Chain(b, Queued(l), b.queues[l]) {
      ChainFrame(a, b, x, Queued(l), a.queues[l]);
    }
  }

  /** Filling in a borrowed slot touches no chain. */
  lemma FillKeepsSound<K>(a: Layout<K>, x: nat, s: Slot)
    requires Sound(a) && x < |a.slots| && a.owner[x] == Borrowed && s.next == None
    ensures Sound(a.(slots := a.slots[x := s]))
  {
    var b := a.(slots := a.slots[x := s]);
    ChainFrame(a, b, x, Free, a.free);
    forall l | l in b.queues ensures Chain(b, Queued(l), b.queues[l]) {
      ChainFrame(a, b, x, Queued(l), a.queues[l]);
    }
  }

  /** A new, empty queue joins the arena. */
  lemma OpenKeepsSound<K>(a: Layout<K>, l: K)
    requires Sound(a) && l !in a.queues
    ensures Sound(a.(queues := a.queues[l := []]))
  {
    var b := a.(queues := a.queues[l := []]);
    assert Chain(b, Queued(l), []);
    forall m | m in b.queues ensures Chain(b, Queued(m), b.queues[m]) {
      if m != l {
        assert Chain(a, Queued(m), a.queues[m]);
      }
    }
  }

  // ---- nothing lost: counting ----

  function Below(n: nat): (r: set<nat>)
    ensures |r| == n && forall i :: i in r <==> 0 <= i < n
  {
    if n == 0 then {} else Below(n - 1) + {n - 1}
  }

  function Members(q: seq<nat>): set<nat> {
    set i | i in q
  }

  lemma {:induction false} MembersCount(slots: seq<Slot>, q: seq<nat>)
    requires Linked(slots, q)
    ensures |Members(q)| == |q|
  {
    if q != [] {
      MembersCount(slots, q[1..]);
      assert Members(q) == Members(q[1..]) + {q[0]};
    }
  }

  /** A chain is as long as the arena exactly when every slot is on it. */
  lemma FullChain(slots: seq<Slot>, q: seq<nat>)
    requires Linked(slots, q)
    ensures |q| == |slots| <==> forall i :: 0 <= i < |slots| ==> i in q
    ensures |q| <= |slots|
  {
    var all := Below(|slots|);
    MembersCount(slots, q);
    LinkedInRange(slots, q);
    assert Members(q) <= all;
    assert all == Members(q) + (all - Members(q));
    if |q| == |slots| {
      assert |all - Members(q)| == 0;
      assert Members(q) == all;
      forall i | 0 <= i < |slots| ensures i in q {
        assert i in Members(q);
      }
    }
    if forall i :: 0 <= i < |slots| ==> i in q {
      assert Members(q) == all;
    }
  }

  /** The idle test is exact: the free chain has all slots iff nothing is queued and nothing is
      out on loan. */
  lemma AllFreeIffNothingHeld<K>(a: Layout<K>)
    requires Sound(a)
    ensures |a.free| == |a.slots| <==>
              && (forall l :: l in a.queues ==> a.queues[l] == [])
              && (forall i :: 0 <= i < |a.owner| ==> !a.owner[i].Borrowed?)
  {
    FullChain(a.slots, a.free);
    forall i | 0 <= i < |a.owner| ensures i in a.free <==> a.owner[i] == Free {
    }
    forall l | l in a.queues ensures a.queues[l] == [] <==> Queued(l) !in a.owner {
      assert Chain(a, Queued(l), a.queues[l]);
      if a.queues[l] != [] {
        assert a.owner[a.queues[l][0]] == Queued(l);
      }
    }
    if (forall l :: l in a.queues ==> a.queues[l] == []) && (forall i :: 0 <= i < |a.owner| ==> !a.owner[i].Borrowed?) {
      forall i | 0 <= i < |a.owner| ensures i in a.free {
        assert a.owner[i] in a.owner;
      }
    } else if exists l :: l in a.queues && a.queues[l] != [] {
      var l :| l in a.queues && a.queues[l] != [];
      var i :| 0 <= i < |a.owner| && a.owner[i] == Queued(l);
      assert i !in a.free;
    }
  }
}
