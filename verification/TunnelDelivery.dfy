/** What reaches a Worker, and what each counter counts: over every interleaving of the tunnel thread with
    Workers that hand packets to each other and take their own. */
module TunnelDelivery {
  import opened Options
  import opened Words
  import opened BigEndian
  import opened ForwardCodec
  import opened ReplayWindow
  import opened ReplayCache
  import opened HandoffQueue
  import opened PacketRouting
  import opened TunnelReceiver

  // ---- first in, first out, nothing changed on the way ----

  /** The Worker a hand-over is for. */
  function Target(h: HandOver): nat {
    match h
    case FromTunnel(d) => d.targetWorker
    case FromWorker(w, _, _) => w
  }

  /** The hand-overs to Worker `w`, in order. */
  function HandedTo(handed: seq<HandOver>, w: nat): seq<HandOver>
    decreases |handed|
  {
    if handed == [] then []
    else
      var (rest, last) := (HandedTo(handed[..|handed| - 1], w), handed[|handed| - 1]);
      if Target(last) == w then rest + [last] else rest
  }

  /** The packets Worker `w` took, in order. */
  function TakenBy(taken: seq<Taking>, w: nat): seq<ForwardPacket>
    decreases |taken|
  {
    if taken == [] then []
    else
      var (rest, last) := (TakenBy(taken[..|taken| - 1], w), taken[|taken| - 1]);
      if last.worker == w then rest + [last.packet] else rest
  }

  /** The packet is what was handed over: from the tunnel the payload, the client's address and where it
      came from; from a neighbour the bytes and the address it gave. */
  predicate Carries(p: ForwardPacket, h: HandOver) {
    match h
    case FromTunnel(d) =>
      && p.bytes == d.payload && p.from == d.client && p.tunnel.Some?
      && p.tunnel.value.kind == d.kind && p.tunnel.value.sourceNode == d.sourceNode && p.tunnel.value.sourceWorker == d.sourceWorker
    case FromWorker(_, bytes, from) => p.bytes == bytes && p.from == from && p.tunnel.None?
  }

  predicate AllCarry(ps: seq<ForwardPacket>, hs: seq<HandOver>) {
    |ps| == |hs| && forall k :: 0 <= k < |ps| ==> Carries(ps[k], hs[k])
  }

  /** What Worker `w` took and what is queued for it are, in order, the hand-overs to it. */
  ghost predicate InOrderFor(s: State, w: nat)
    requires w < |s.router.queues|
  {
    AllCarry(TakenBy(s.taken, w) + s.router.queues[w].contents, HandedTo(s.handed, w))
  }

  ghost predicate InOrder(s: State) {
    forall w :: 0 <= w < |s.router.queues| ==> InOrderFor(s, w)
  }

  lemma HandedMore(handed: seq<HandOver>, h: HandOver, w: nat)
    ensures HandedTo(handed + [h], w) == HandedTo(handed, w) + if Target(h) == w then [h] else []
  {
    assert (handed + [h])[..|handed|] == handed;
  }

  lemma TakenMore(taken: seq<Taking>, x: Taking, w: nat)
    ensures TakenBy(taken + [x], w) == TakenBy(taken, w) + if x.worker == w then [x.packet] else []
  {
    assert (taken + [x])[..|taken|] == taken;
  }

  /** A push that is not refused puts the packet at the end of its queue and moves no other. */
  lemma OfferIs(r: Router, worker: nat, p: ForwardPacket)
    ensures var u := Offer(r, worker, p);
            && |u.queues| == |r.queues|
            && (RouteOutcome(r, worker, p).None? ==> worker < |r.queues|)
            && forall w :: 0 <= w < |r.queues| ==>
                 u.queues[w].contents == r.queues[w].contents + if w == worker && RouteOutcome(r, worker, p).None? then [p] else []
  {
  }

  lemma {:induction false} PushKeepsOrder(s: State, t: State, worker: nat, p: ForwardPacket, h: HandOver)
    requires InOrder(s) && Target(h) == worker && Carries(p, h)
    requires t.router.queues == Offer(s.router, worker, p).queues && t.taken == s.taken
    requires t.handed == if RouteOutcome(s.router, worker, p).None? then s.handed + [h] else s.handed
    ensures InOrder(t)
  {
    OfferIs(s.router, worker, p);
    hide Offer, RouteOutcome, Carries, HandedTo, TakenBy, Target;
    forall w | 0 <= w < |t.router.queues| ensures InOrderFor(t, w) {
      assert InOrderFor(s, w);
      HandedMore(s.handed, h, w);
      var (before, queued) := (TakenBy(s.taken, w), s.router.queues[w].contents);
      assert before + (queued + [p]) == before + queued + [p];
      assert queued + [] == queued;
    }
  }

  lemma {:induction false} TakeKeepsOrder(s: State, t: State, worker: nat)
    requires InOrder(s) && worker < |s.router.queues| && s.router.queues[worker].contents != []
    requires t.router == PopFrom(s.router, worker) && t.handed == s.handed
    requires t.taken == s.taken + [Taking(worker, s.router.queues[worker].contents[0])]
    ensures InOrder(t)
  {
    hide Carries, HandedTo, TakenBy, Target;
    forall w | 0 <= w < |t.router.queues| ensures InOrderFor(t, w) {
      assert InOrderFor(s, w);
      TakenMore(s.taken, Taking(worker, s.router.queues[worker].contents[0]), w);
      var (before, queued) := (TakenBy(s.taken, w), s.router.queues[w].contents);
      if w == worker {
        assert before + [queued[0]] + queued[1..] == before + queued;
      } else {
        assert before + [] == before;
      }
    }
  }

  lemma {:induction false} StepKeepsOrder(c: Config, s: State, step: Step)
    requires InOrder(s) && Enabled(s, step)
    ensures InOrder(Apply(c, s, step))
  {
    hide DecodeWithFallback, Accept, InOrder, Offer, RouteOutcome, HandedTo, TakenBy;
    var t := Apply(c, s, step);
    match step
    case Proceed =>
      if s.phase.Handing? {
        var d := s.phase.packet;
        PushKeepsOrder(s, t, d.targetWorker, PacketOf(d), FromTunnel(d));
      } else {
        SameQueuesSameOrder(s, t);
      }
    case LocalPush(w, bytes, from) => PushKeepsOrder(s, t, w, ForwardPacket(bytes, from, None), FromWorker(w, bytes, from));
    case Taken(w) => TakeKeepsOrder(s, t, w);
    case _ => SameQueuesSameOrder(s, t);
  }

  lemma SameQueuesSameOrder(s: State, t: State)
    requires InOrder(s) && t.router.queues == s.router.queues && t.taken == s.taken && t.handed == s.handed
    ensures InOrder(t)
  {
    hide TakenBy, HandedTo, Carries;
    forall w | 0 <= w < |t.router.queues| ensures InOrderFor(t, w) {
      assert InOrderFor(s, w);
    }
  }

  /** A packet goes in exactly when there is such a Worker, the packet is no longer than 2048 bytes and the
      Worker's queue is not full; otherwise no queue changes. */
  lemma HandOverIsExact(r: Router, worker: nat, p: ForwardPacket)
    ensures var u := Offer(r, worker, p);
            if worker < |r.queues| && |p.bytes| <= 2048 && |r.queues[worker].contents| < r.queues[worker].capacity then
              && |u.queues| == |r.queues| && u.queues[worker].contents == r.queues[worker].contents + [p]
              && forall w :: 0 <= w < |r.queues| && w != worker ==> u.queues[w] == r.queues[w]
            else u.queues == r.queues
  {
  }

  // ---- what is handed over came in ----

  /** Some datagram that came in is the encoding of the packet under one of the two secrets. */
  ghost predicate Encoded(c: Config, arrived: seq<seq<Byte>>, d: Decoded) {
    exists k :: 0 <= k < |arrived| && IsEncoding(c, arrived[k], d)
  }

  predicate IsEncoding(c: Config, bytes: seq<Byte>, d: Decoded) {
    bytes == Wire(d, c.current, c.mac) || (c.previous != [] && bytes == Wire(d, c.previous, c.mac))
  }

  /** The tunnel packet in work, and each that was handed over, is for this node and came in encoded. */
  ghost predicate Authentic(c: Config, s: State) {
    && (s.phase.Handing? ==> Rightful(c, s.arrived, s.phase.packet))
    && forall k :: 0 <= k < |s.handed| && s.handed[k].FromTunnel? ==> Rightful(c, s.arrived, s.handed[k].packet)
  }

  ghost predicate Rightful(c: Config, arrived: seq<seq<Byte>>, d: Decoded) {
    d.targetNode == c.nodeId && Encoded(c, arrived, d)
  }

  lemma StillRightful(c: Config, arrived: seq<seq<Byte>>, bytes: seq<Byte>, d: Decoded)
    requires Rightful(c, arrived, d)
    ensures Rightful(c, arrived + [bytes], d)
  {
    hide Wire;
    var k :| 0 <= k < |arrived| && IsEncoding(c, arrived[k], d);
    assert (arrived + [bytes])[k] == arrived[k];
  }

  lemma ArrivedIsEncoded(c: Config, arrived: seq<seq<Byte>>, bytes: seq<Byte>)
    requires DecodeWithFallback(bytes, c.current, c.previous, c.mac).Ok?
    ensures Encoded(c, arrived + [bytes], DecodeWithFallback(bytes, c.current, c.previous, c.mac).value)
  {
    FallbackIsSound(bytes, c.current, c.previous, c.mac);
    hide DecodeWithFallback, Wire;
    assert IsEncoding(c, (arrived + [bytes])[|arrived|], DecodeWithFallback(bytes, c.current, c.previous, c.mac).value);
  }

  lemma OnlyForThisNode(r: Replay, nodeId: U16, d: Decoded)
    requires WellFormed(r)
    ensures Accept(r, nodeId, d).1 == Misrouted <==> d.targetNode != nodeId
  {
  }

  lemma {:induction false} StepKeepsAuthentic(c: Config, s: State, step: Step)
    requires Authentic(c, s) && Enabled(s, step)
    ensures Authentic(c, Apply(c, s, step))
  {
    hide DecodeWithFallback, Accept, Rightful, Offer, RouteOutcome;
    var t := Apply(c, s, step);
    if step.Arrive? {
      forall d | Rightful(c, s.arrived, d) ensures Rightful(c, t.arrived, d) {
        StillRightful(c, s.arrived, step.bytes, d);
      }
      var r := DecodeWithFallback(step.bytes, c.current, c.previous, c.mac);
      if r.Ok? {
        ArrivedIsEncoded(c, s.arrived, step.bytes);
        OnlyForThisNode(s.replay, c.nodeId, r.value);
        assert t.phase.Handing? ==> Rightful(c, t.arrived, r.value) by { RightfulIs(c, t.arrived, r.value); }
      }
    }
  }

  lemma RightfulIs(c: Config, arrived: seq<seq<Byte>>, d: Decoded)
    ensures Rightful(c, arrived, d) <==> d.targetNode == c.nodeId && Encoded(c, arrived, d)
  {
    hide Encoded;
  }

  // ---- nothing is handed over twice ----

  /** What `entered` records, read off the hand-overs. */
  function EnteredOf(handed: seq<HandOver>): seq<(Sender, Word)>
    decreases |handed|
  {
    if handed == [] then []
    else
      var (rest, last) := (EnteredOf(handed[..|handed| - 1]), handed[|handed| - 1]);
      if last.FromTunnel? then rest + [(SenderOf(last.packet), last.packet.sequence)] else rest
  }

  lemma EnteredMore(handed: seq<HandOver>, h: HandOver)
    ensures EnteredOf(handed + [h])
         == EnteredOf(handed) + if h.FromTunnel? then [(SenderOf(h.packet), h.packet.sequence)] else []
  {
    assert (handed + [h])[..|handed|] == handed;
  }

  lemma {:induction false} StepEntersHanded(c: Config, s: State, step: Step)
    requires s.entered == EnteredOf(s.handed) && Enabled(s, step)
    ensures Apply(c, s, step).entered == EnteredOf(Apply(c, s, step).handed)
  {
    hide DecodeWithFallback, Accept, Offer, RouteOutcome, EnteredOf;
    match step
    case Proceed =>
      if s.phase.Handing? {
        EnteredMore(s.handed, FromTunnel(s.phase.packet));
      }
    case LocalPush(w, bytes, from) => EnteredMore(s.handed, FromWorker(w, bytes, from));
    case _ =>
  }

  lemma {:induction false} RunEntersHanded(c: Config, s: State, steps: seq<Step>)
    requires s.entered == EnteredOf(s.handed) && CanRun(c, s, steps)
    ensures Run(c, s, steps).entered == EnteredOf(Run(c, s, steps).handed)
    decreases |steps|
  {
    hide Apply, EnteredOf;
    if steps != [] {
      StepEntersHanded(c, s, steps[0]);
      RunEntersHanded(c, Apply(c, s, steps[0]), steps[1..]);
    }
  }

  /** Two hand-overs from the tunnel agree in source node, session and sequence. */
  predicate SamePacket(a: HandOver, b: HandOver) {
    && a.FromTunnel? && b.FromTunnel? && a.packet.sourceNode == b.packet.sourceNode
    && a.packet.session == b.packet.session && a.packet.sequence == b.packet.sequence
  }

  lemma {:induction false} RepeatsShow(handed: seq<HandOver>, i: nat, j: nat)
    requires i < j < |handed| && SamePacket(handed[i], handed[j])
    ensures exists k, l :: 0 <= k < l < |EnteredOf(handed)| && EnteredOf(handed)[k] == EnteredOf(handed)[l]
    decreases |handed|
  {
    var before := handed[..|handed| - 1];
    assert handed == before + [handed[|handed| - 1]];
    EnteredMore(before, handed[|handed| - 1]);
    if j < |before| {
      RepeatsShow(before, i, j);
      var k, l :| 0 <= k < l < |EnteredOf(before)| && EnteredOf(before)[k] == EnteredOf(before)[l];
      assert EnteredOf(handed)[k] == EnteredOf(handed)[l];
    } else {
      var k := EnteredHas(before, i);
      assert EnteredOf(handed)[k] == EnteredOf(handed)[|EnteredOf(before)|];
    }
  }

  lemma {:induction false} EnteredHas(handed: seq<HandOver>, i: nat) returns (k: nat)
    requires i < |handed| && handed[i].FromTunnel?
    ensures k < |EnteredOf(handed)| && EnteredOf(handed)[k] == (SenderOf(handed[i].packet), handed[i].packet.sequence)
    decreases |handed|
  {
    var before := handed[..|handed| - 1];
    assert handed == before + [handed[|handed| - 1]];
    EnteredMore(before, handed[|handed| - 1]);
    if i < |before| {
      k := EnteredHas(before, i);
    } else {
      k := |EnteredOf(before)|;
    }
  }

  /** Over every run in which at most 128 (source node, session) pairs were accepted, no two packets handed
      over from the tunnel agree in source node, session and sequence. */
  lemma {:induction false} NothingIsHandedTwice(c: Config, workers: nat, capacity: nat, steps: seq<Step>, i: nat, j: nat)
    requires CanRun(c, Initial(workers, capacity), steps) && i < j < |Run(c, Initial(workers, capacity), steps).handed|
    requires |Log(c.nodeId, Run(c, Initial(workers, capacity), steps).decoded)| <= CACHE_CAPACITY
    ensures !SamePacket(Run(c, Initial(workers, capacity), steps).handed[i], Run(c, Initial(workers, capacity), steps).handed[j])
  {
    TunnelIsExact(c, workers, capacity, steps);
    RunEntersHanded(c, Initial(workers, capacity), steps);
    var t := Run(c, Initial(workers, capacity), steps);
    hide Run, CanRun, EnteredOf, Log;
    if SamePacket(t.handed[i], t.handed[j]) {
      RepeatsShow(t.handed, i, j);
    }
  }

  // ---- what each counter counts ----

  /** The packets among the datagrams: those that decode, in order. */
  function DecodedOf(c: Config, arrived: seq<seq<Byte>>): seq<Decoded>
    decreases |arrived|
  {
    if arrived == [] then []
    else
      var rest := DecodedOf(c, arrived[..|arrived| - 1]);
      match DecodeWithFallback(arrived[|arrived| - 1], c.current, c.previous, c.mac)
      case Ok(d) => rest + [d]
      case Err(_) => rest
  }

  /** How many packets are for another node. */
  function Foreign(nodeId: U16, packets: seq<Decoded>): nat
    decreases |packets|
  {
    if packets == [] then 0
    else Foreign(nodeId, packets[..|packets| - 1]) + if packets[|packets| - 1].targetNode != nodeId then 1 else 0
  }

  /** How many packets for this node the replay table, as the packets before left it, accepts. */
  function FirstSeen(nodeId: U16, packets: seq<Decoded>): nat
    decreases |packets|
  {
    if packets == [] then 0
    else
      var (before, d) := (packets[..|packets| - 1], packets[|packets| - 1]);
      FirstSeen(nodeId, before)
      + if d.targetNode == nodeId && Accept(After(nodeId, before), nodeId, d).1 == Accepted then 1 else 0
  }

  function Tunnelled(handed: seq<HandOver>): nat
    decreases |handed|
  {
    if handed == [] then 0
    else Tunnelled(handed[..|handed| - 1]) + if handed[|handed| - 1].FromTunnel? then 1 else 0
  }

  function One(b: bool): nat {
    if b then 1 else 0
  }

  /** Each counter is the number of datagrams with its outcome, less the one in work. */
  ghost predicate Tallied(c: Config, s: State) {
    && s.decoded == DecodedOf(c, s.arrived) && s.replay == After(c.nodeId, s.decoded)
    && var (all, packets) := (|s.arrived|, |s.decoded|);
    && s.counters.decodeFailures + One(s.phase == Refusing(Undecoded)) + packets == all
    && s.counters.misrouted + One(s.phase == Refusing(WrongNode)) == Foreign(c.nodeId, s.decoded)
    && s.counters.replayed + One(s.phase == Refusing(SeenBefore)) + FirstSeen(c.nodeId, s.decoded) + Foreign(c.nodeId, s.decoded) == packets
    && s.counters.delivered + One(s.phase == Pushed || s.phase == Forwarded) == Tunnelled(s.handed)
    && s.counters.handoffFailures + One(s.phase.Handing? || s.phase == Dropping || s.phase == Unhanded) + Tunnelled(s.handed)
       == FirstSeen(c.nodeId, s.decoded)
    && s.router.forwarded + Uncounted(s) == |s.handed|
  }

  lemma DecodedMore(c: Config, arrived: seq<seq<Byte>>, bytes: seq<Byte>)
    ensures DecodedOf(c, arrived + [bytes])
         == DecodedOf(c, arrived) + match DecodeWithFallback(bytes, c.current, c.previous, c.mac) case Ok(d) => [d] case Err(_) => []
  {
    hide DecodeWithFallback;
    assert (arrived + [bytes])[..|arrived|] == arrived;
  }

  lemma PacketsMore(nodeId: U16, packets: seq<Decoded>, d: Decoded)
    ensures After(nodeId, packets + [d]) == Accept(After(nodeId, packets), nodeId, d).0
    ensures Foreign(nodeId, packets + [d]) == Foreign(nodeId, packets) + One(d.targetNode != nodeId)
    ensures FirstSeen(nodeId, packets + [d])
         == FirstSeen(nodeId, packets) + One(d.targetNode == nodeId && Accept(After(nodeId, packets), nodeId, d).1 == Accepted)
  {
    hide Accept;
    assert (packets + [d])[..|packets|] == packets;
  }

  lemma ArrivalTallies(c: Config, s: State, bytes: seq<Byte>)
    requires Tallied(c, s) && Enabled(s, Arrive(bytes))
    ensures Tallied(c, Arrived(c, s, bytes))
  {
    hide DecodeWithFallback, DecodedOf, After, Accept, Foreign, FirstSeen, Tunnelled;
    DecodedMore(c, s.arrived, bytes);
    var r := DecodeWithFallback(bytes, c.current, c.previous, c.mac);
    if r.Ok? {
      PacketsMore(c.nodeId, s.decoded, r.value);
      OnlyForThisNode(s.replay, c.nodeId, r.value);
    }
  }

  lemma HandedTallies(handed: seq<HandOver>, h: HandOver)
    ensures Tunnelled(handed + [h]) == Tunnelled(handed) + One(h.FromTunnel?)
  {
    assert (handed + [h])[..|handed|] == handed;
  }

  lemma {:induction false} StepTallies(c: Config, s: State, step: Step)
    requires Tallied(c, s) && Enabled(s, step)
    ensures Tallied(c, Apply(c, s, step))
  {
    hide Arrived, RouteOutcome, DecodedOf, After, Foreign, FirstSeen, Tunnelled;
    match step
    case Arrive(bytes) => ArrivalTallies(c, s, bytes);
    case Proceed =>
      if s.phase.Handing? {
        HandedTallies(s.handed, FromTunnel(s.phase.packet));
      }
    case LocalPush(w, bytes, from) => HandedTallies(s.handed, FromWorker(w, bytes, from));
    case _ =>
  }

  // ---- every run ----

  lemma {:induction false} RunKeepsAll(c: Config, s: State, steps: seq<Step>)
    requires InOrder(s) && Authentic(c, s) && Tallied(c, s) && CanRun(c, s, steps)
    ensures var t := Run(c, s, steps); InOrder(t) && Authentic(c, t) && Tallied(c, t)
    decreases |steps|
  {
    hide InOrder, Authentic, Tallied, Apply;
    if steps != [] {
      StepKeepsOrder(c, s, steps[0]);
      StepKeepsAuthentic(c, s, steps[0]);
      StepTallies(c, s, steps[0]);
      RunKeepsAll(c, Apply(c, s, steps[0]), steps[1..]);
    }
  }

  lemma InitialKeepsAll(c: Config, workers: nat, capacity: nat)
    ensures var s := Initial(workers, capacity); InOrder(s) && Authentic(c, s) && Tallied(c, s)
  {
  }

  /** Over every run: what a Worker took from its queue, and then what is queued for it, are in order the
      packets handed over to it, unchanged; and every tunnel packet among them is for this node and is what
      some node encoded under one of the two secrets in a datagram that came in. */
  lemma {:induction false} WorkersTakeWhatWasSent(c: Config, workers: nat, capacity: nat, steps: seq<Step>, w: nat)
    requires CanRun(c, Initial(workers, capacity), steps) && w < |Run(c, Initial(workers, capacity), steps).router.queues|
    ensures var t := Run(c, Initial(workers, capacity), steps);
            var (packets, handed) := (TakenBy(t.taken, w) + t.router.queues[w].contents, HandedTo(t.handed, w));
            && AllCarry(packets, handed)
            && forall k :: 0 <= k < |handed| ==>
                 && Target(handed[k]) == w
                 && (handed[k].FromTunnel? ==> handed[k].packet.targetNode == c.nodeId && Encoded(c, t.arrived, handed[k].packet))
  {
    InitialKeepsAll(c, workers, capacity);
    RunKeepsAll(c, Initial(workers, capacity), steps);
    var t := Run(c, Initial(workers, capacity), steps);
    hide Run, CanRun, AllCarry, Encoded;
    assert InOrderFor(t, w);
    HandedAreHanded(t.handed, w);
    forall k | 0 <= k < |HandedTo(t.handed, w)| && HandedTo(t.handed, w)[k].FromTunnel?
      ensures Rightful(c, t.arrived, HandedTo(t.handed, w)[k].packet)
    {
      assert HandedTo(t.handed, w)[k] in t.handed;
    }
    hide HandedTo, TakenBy;
  }

  lemma {:induction false} HandedAreHanded(handed: seq<HandOver>, w: nat)
    ensures forall k :: 0 <= k < |HandedTo(handed, w)| ==> Target(HandedTo(handed, w)[k]) == w && HandedTo(handed, w)[k] in handed
    decreases |handed|
  {
    if handed != [] {
      var (before, last) := (handed[..|handed| - 1], handed[|handed| - 1]);
      HandedAreHanded(before, w);
      assert handed == before + [last];
      HandedMore(before, last, w);
      hide HandedTo;
    }
  }

  /** Over every run, once the tunnel thread waits: failed decodes, misrouted, replayed, delivered and failed
      hand-overs are each the number of datagrams with that outcome, and forwarded is, up to Workers that
      have not counted yet, the number of packets handed over. */
  lemma {:induction false} CountersCountOutcomes(c: Config, workers: nat, capacity: nat, steps: seq<Step>)
    requires CanRun(c, Initial(workers, capacity), steps) && Run(c, Initial(workers, capacity), steps).phase == Waiting
    ensures var t := Run(c, Initial(workers, capacity), steps);
            var packets := DecodedOf(c, t.arrived);
            && t.counters.decodeFailures == |t.arrived| - |packets|
            && t.counters.misrouted == Foreign(c.nodeId, packets)
            && t.counters.replayed == |packets| - Foreign(c.nodeId, packets) - FirstSeen(c.nodeId, packets)
            && t.counters.delivered == Tunnelled(t.handed)
            && t.counters.handoffFailures == FirstSeen(c.nodeId, packets) - Tunnelled(t.handed)
            && t.router.forwarded == |t.handed| - t.localPushed
  {
    InitialKeepsAll(c, workers, capacity);
    RunKeepsAll(c, Initial(workers, capacity), steps);
    hide Run, CanRun, DecodedOf, Foreign, FirstSeen, Tunnelled;
  }
}
