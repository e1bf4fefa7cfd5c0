/** The local router: one bounded queue per Worker, and the two counters that observe it. */
module PacketRouting {
  import opened Options
  import opened BigEndian
  import opened ForwardCodec
  import opened HandoffQueue

  datatype Metadata = Metadata(kind: Kind, sourceNode: U16, sourceWorker: Byte)

  datatype ForwardPacket = ForwardPacket(bytes: seq<Byte>, from: Address, tunnel: Option<Metadata>)

  datatype RouteError = InvalidWorkerId | PacketTooLarge | Refused(error: PushError)

  /** Packets carry no realm, so a packet queue refuses only when it is full. `offered` is history: the
      hand-overs to a Worker there is. */
  datatype Router = Router(queues: seq<Queue<ForwardPacket>>, forwarded: nat, dropped: nat, offered: nat)

  function RouteOutcome(r: Router, worker: nat, p: ForwardPacket): Option<RouteError> {
    if worker >= |r.queues| then Some(RouteError.InvalidWorkerId)
    else if |p.bytes| > MAX_PACKET_SIZE then Some(RouteError.PacketTooLarge)
    else if |r.queues[worker].contents| >= r.queues[worker].capacity then Some(Refused(QueueFull))
    else None
  }

  /** What happens under the queue's lock: the packet is in, or it is not. Counting comes later. */
  function Offer(r: Router, worker: nat, p: ForwardPacket): Router {
    match RouteOutcome(r, worker, p)
    case None => r.(queues := r.queues[worker := Push(r.queues[worker], p)], offered := r.offered + 1)
    case Some(InvalidWorkerId) => r
    case Some(_) => r.(offered := r.offered + 1)
  }

  /** A whole hand-over with nobody in between; an unknown Worker is not counted as a drop. */
  function Forward(r: Router, worker: nat, p: ForwardPacket): Router {
    var u := Offer(r, worker, p);
    match RouteOutcome(r, worker, p)
    case None => u.(forwarded := u.forwarded + 1)
    case Some(InvalidWorkerId) => u
    case Some(_) => u.(dropped := u.dropped + 1)
  }

  function PopFrom(r: Router, worker: nat): Router
    requires worker < |r.queues| && r.queues[worker].contents != []
  {
    r.(queues := r.queues[worker := Pop(r.queues[worker])])
  }

  /** How many packets a list holds, or how many of them came through the tunnel. */
  function Count(items: seq<ForwardPacket>, tunnelOnly: bool): nat {
    if items == [] then 0
    else (if !tunnelOnly || items[0].tunnel.Some? then 1 else 0) + Count(items[1..], tunnelOnly)
  }

  function Queued(queues: seq<Queue<ForwardPacket>>, tunnelOnly: bool): nat {
    if queues == [] then 0 else Count(queues[0].contents, tunnelOnly) + Queued(queues[1..], tunnelOnly)
  }

  lemma {:induction false} CountAppend(items: seq<ForwardPacket>, p: ForwardPacket, tunnelOnly: bool)
    ensures Count(items + [p], tunnelOnly) == Count(items, tunnelOnly) + if !tunnelOnly || p.tunnel.Some? then 1 else 0
  {
    if items == [] {
      assert items + [p] == [p];
    } else {
      assert (items + [p])[1..] == items[1..] + [p];
      CountAppend(items[1..], p, tunnelOnly);
    }
  }

  lemma {:induction false} QueuedUpdate(queues: seq<Queue<ForwardPacket>>, w: nat, q: Queue<ForwardPacket>, tunnelOnly: bool)
    requires w < |queues|
    ensures Queued(queues[w := q], tunnelOnly) + Count(queues[w].contents, tunnelOnly)
         == Queued(queues, tunnelOnly) + Count(q.contents, tunnelOnly)
  {
    if w == 0 {
      assert queues[w := q][1..] == queues[1..];
    } else {
      assert queues[w := q][1..] == queues[1..][w - 1 := q];
      QueuedUpdate(queues[1..], w - 1, q, tunnelOnly);
    }
  }

  lemma ForwardCounts(r: Router, worker: nat, p: ForwardPacket, tunnelOnly: bool)
    ensures Queued(Offer(r, worker, p).queues, tunnelOnly)
         == Queued(r.queues, tunnelOnly)
            + if RouteOutcome(r, worker, p).None? && (!tunnelOnly || p.tunnel.Some?) then 1 else 0
  {
    if RouteOutcome(r, worker, p).None? {
      QueuedUpdate(r.queues, worker, Push(r.queues[worker], p), tunnelOnly);
      CountAppend(r.queues[worker].contents, p, tunnelOnly);
    }
  }

  lemma PopCounts(r: Router, worker: nat, tunnelOnly: bool)
    requires worker < |r.queues| && r.queues[worker].contents != []
    ensures Queued(r.queues, tunnelOnly) == Queued(PopFrom(r, worker).queues, tunnelOnly)
                  + if !tunnelOnly || r.queues[worker].contents[0].tunnel.Some? then 1 else 0
  {
    QueuedUpdate(r.queues, worker, Pop(r.queues[worker]), tunnelOnly);
  }
}

/** The receive side of the tunnel: one datagram at a time, every outcome counted once. */
module TunnelReceiver {
  import opened Options
  import opened Words
  import opened BigEndian
  import opened ForwardCodec
  import opened ReplayWindow
  import opened ReplayCache
  import opened HandoffQueue
  import opened PacketRouting

  datatype Counters = Counters(
    decodeFailures: nat, misrouted: nat, replayed: nat, delivered: nat, handoffFailures: nat)
  {
    function Total(): nat {
      decodeFailures + misrouted + replayed + delivered + handoffFailures
    }
  }

  datatype Config = Config(nodeId: U16, current: seq<Byte>, previous: seq<Byte>, mac: Mac)

  datatype Refusal = Undecoded | WrongNode | SeenBefore

  /** Where the tunnel thread is between two accesses to what others can see: waiting for a datagram;
      about to count one it refused; about to hand one over; about to count the drop, and then the
      failed hand-over; about to count the forward, and then the delivery. */
  datatype Phase = Waiting | Refusing(why: Refusal) | Handing(packet: Decoded) | Dropping | Unhanded | Pushed | Forwarded

  /** What was put into a Worker queue: a packet that came through the tunnel, or one of a neighbour. */
  datatype HandOver = FromTunnel(packet: Decoded) | FromWorker(worker: nat, bytes: seq<Byte>, from: Address)

  datatype Taking = Taking(worker: nat, packet: ForwardPacket)

  /** `localPushed` and `localDropping` are the Workers that have handed a packet to a neighbour, or failed
      to, and have not counted it yet. The rest is history: every datagram that came in, every packet that
      authenticated, every (sender, sequence) and everything else that was put into a Worker queue, and
      what Workers took out. */
  datatype State = State(
    replay: Replay, router: Router, counters: Counters, phase: Phase, localPushed: nat, localDropping: nat,
    arrived: seq<seq<Byte>>, decoded: seq<Decoded>, entered: seq<(Sender, Word)>, handed: seq<HandOver>, taken: seq<Taking>)

  function PacketOf(d: Decoded): ForwardPacket {
    ForwardPacket(d.payload, d.client, Some(Metadata(d.kind, d.sourceNode, d.sourceWorker)))
  }

  /** A datagram comes in and is judged; only the thread's own table changes. */
  function Arrived(c: Config, s: State, bytes: seq<Byte>): State
    requires WellFormed(s.replay)
  {
    var t := s.(arrived := s.arrived + [bytes]);
    match DecodeWithFallback(bytes, c.current, c.previous, c.mac)
    case Err(_) => t.(phase := Refusing(Undecoded))
    case Ok(d) =>
      var (replay, verdict) := Accept(s.replay, c.nodeId, d);
      t.(replay := replay, decoded := s.decoded + [d],
         phase := match verdict
                  case Misrouted => Refusing(WrongNode)
                  case Replayed => Refusing(SeenBefore)
                  case Accepted => Handing(d))
  }

  function CountRefusal(c: Counters, why: Refusal): Counters {
    match why
    case Undecoded => c.(decodeFailures := c.decodeFailures + 1)
    case WrongNode => c.(misrouted := c.misrouted + 1)
    case SeenBefore => c.(replayed := c.replayed + 1)
  }

  /** The thread's next access to a queue or a counter. */
  function Proceeded(s: State): State
    requires s.phase != Waiting
  {
    match s.phase
    case Refusing(why) => s.(counters := CountRefusal(s.counters, why), phase := Waiting)
    case Handing(d) =>
      var t := s.(router := Offer(s.router, d.targetWorker, PacketOf(d)));
      (match RouteOutcome(s.router, d.targetWorker, PacketOf(d))
       case None => t.(entered := s.entered + [(SenderOf(d), d.sequence)], handed := s.handed + [FromTunnel(d)], phase := Pushed)
       case Some(InvalidWorkerId) => t.(phase := Unhanded)
       case Some(_) => t.(phase := Dropping))
    case Dropping => s.(router := s.router.(dropped := s.router.dropped + 1), phase := Unhanded)
    case Unhanded => s.(counters := s.counters.(handoffFailures := s.counters.handoffFailures + 1), phase := Waiting)
    case Pushed => s.(router := s.router.(forwarded := s.router.forwarded + 1), phase := Forwarded)
    case Forwarded => s.(counters := s.counters.(delivered := s.counters.delivered + 1), phase := Waiting)
  }

  /** One access at a time: the tunnel thread's, a Worker's that hands a packet to a neighbour, and a
      Worker's that takes its oldest packet. */
  datatype Step =
    | Arrive(bytes: seq<Byte>)
    | Proceed
    | LocalPush(worker: nat, bytes: seq<Byte>, from: Address)
    | LocalCount
    | LocalDrop
    | Taken(worker: nat)

  predicate Enabled(s: State, step: Step) {
    && WellFormed(s.replay)
    && match step
       case Arrive(_) => s.phase == Waiting
       case Proceed => s.phase != Waiting
       case LocalPush(_, _, _) => true
       case LocalCount => s.localPushed > 0
       case LocalDrop => s.localDropping > 0
       case Taken(w) => w < |s.router.queues| && s.router.queues[w].contents != []
  }

  function Apply(c: Config, s: State, step: Step): State
    requires Enabled(s, step)
  {
    match step
    case Arrive(bytes) => Arrived(c, s, bytes)
    case Proceed => Proceeded(s)
    case LocalPush(w, bytes, from) =>
      var p := ForwardPacket(bytes, from, None);
      var t := s.(router := Offer(s.router, w, p));
      (match RouteOutcome(s.router, w, p)
       case None => t.(handed := s.handed + [FromWorker(w, bytes, from)], localPushed := s.localPushed + 1)
       case Some(InvalidWorkerId) => t
       case Some(_) => t.(localDropping := s.localDropping + 1))
    case LocalCount => s.(router := s.router.(forwarded := s.router.forwarded + 1), localPushed := s.localPushed - 1)
    case LocalDrop => s.(router := s.router.(dropped := s.router.dropped + 1), localDropping := s.localDropping - 1)
    case Taken(w) =>
      s.(router := PopFrom(s.router, w), taken := s.taken + [Taking(w, s.router.queues[w].contents[0])])
  }

  function Packets(taken: seq<Taking>): (r: seq<ForwardPacket>)
    ensures |r| == |taken|
  {
    seq(|taken|, i requires 0 <= i < |taken| => taken[i].packet)
  }

  /** How many packets Workers took, or how many of them came through the tunnel. */
  function Took(s: State, tunnelOnly: bool): nat {
    Count(Packets(s.taken), tunnelOnly)
  }

  lemma TookMore(s: State, t: State, x: Taking, tunnelOnly: bool)
    requires t.taken == s.taken + [x]
    ensures Took(t, tunnelOnly) == Took(s, tunnelOnly) + if !tunnelOnly || x.packet.tunnel.Some? then 1 else 0
  {
    assert Packets(t.taken) == Packets(s.taken) + [x.packet];
    CountAppend(Packets(s.taken), x.packet, tunnelOnly);
  }

  // ---- what is in flight ----

  /** A tunnel packet that is in a queue, or was, and is not counted as delivered yet. */
  function InHand(s: State): nat {
    if s.phase == Pushed || s.phase == Forwarded then 1 else 0
  }

  /** Packets that are in a queue, or were, and are not counted as forwarded yet: one per thread at most. */
  function Uncounted(s: State): nat {
    s.localPushed + if s.phase == Pushed then 1 else 0
  }

  function UncountedDrops(s: State): nat {
    s.localDropping + if s.phase == Dropping then 1 else 0
  }

  /** Every datagram raised exactly one counter or is the one the thread is at; what is in flight makes
      up the difference between what was counted and what went through the queues. */
  ghost predicate Conserved(s: State) {
    && s.counters.Total() + (if s.phase == Waiting then 0 else 1) == |s.arrived|
    && s.counters.delivered + InHand(s) == Took(s, true) + Queued(s.router.queues, true)
    && s.router.forwarded + Uncounted(s) == Took(s, false) + Queued(s.router.queues, false)
    && s.router.forwarded + Uncounted(s) + s.router.dropped + UncountedDrops(s) == s.router.offered
  }

  lemma ProceedConserves(s: State)
    requires Conserved(s) && s.phase != Waiting
    ensures Conserved(Proceeded(s))
  {
    if s.phase.Handing? {
      var d := s.phase.packet;
      ForwardCounts(s.router, d.targetWorker, PacketOf(d), true);
      ForwardCounts(s.router, d.targetWorker, PacketOf(d), false);
    }
  }

  lemma StepConserves(c: Config, s: State, step: Step)
    requires Conserved(s) && Enabled(s, step)
    ensures Conserved(Apply(c, s, step))
  {
    hide DecodeWithFallback, Accept, Proceeded;
    match step
    case Arrive(bytes) =>
    case Proceed => ProceedConserves(s);
    case LocalPush(w, bytes, from) =>
      ForwardCounts(s.router, w, ForwardPacket(bytes, from, None), true);
      ForwardCounts(s.router, w, ForwardPacket(bytes, from, None), false);
    case Taken(w) =>
      PopCounts(s.router, w, true);
      PopCounts(s.router, w, false);
      TookMore(s, Apply(c, s, step), Taking(w, s.router.queues[w].contents[0]), true);
      TookMore(s, Apply(c, s, step), Taking(w, s.router.queues[w].contents[0]), false);
    case _ =>
  }

  /** The replay table is the one the authenticated packets produced; whatever entered a queue was
      accepted, once, and a packet about to be handed over was accepted last and has not entered. */
  ghost predicate EnteredOnce(c: Config, s: State) {
    && s.replay == After(c.nodeId, s.decoded)
    && var log := Log(c.nodeId, s.decoded);
    && (forall i :: 0 <= i < |s.entered| ==> Logged(log, s.entered[i]))
    && (s.phase.Handing? ==> Logged(log, (SenderOf(s.phase.packet), s.phase.packet.sequence)))
    && (|log| <= CACHE_CAPACITY ==>
          && (forall i, j :: 0 <= i < j < |s.entered| ==> s.entered[i] != s.entered[j])
          && (s.phase.Handing? ==> (SenderOf(s.phase.packet), s.phase.packet.sequence) !in s.entered))
  }

  predicate Logged(log: map<Sender, set<Word>>, entry: (Sender, Word)) {
    entry.0 in log && entry.1 in log[entry.0]
  }

  lemma StepEntersOnce(c: Config, s: State, step: Step)
    requires EnteredOnce(c, s) && Enabled(s, step)
    ensures EnteredOnce(c, Apply(c, s, step))
  {
    hide DecodeWithFallback, RouteOutcome, Offer, Accept, Log, After, Logged;
    if step.Arrive? {
      var r := DecodeWithFallback(step.bytes, c.current, c.previous, c.mac);
      if r.Ok? {
        PacketIsNew(c, s, r.value);
      }
    }
  }

  /** One more authenticated packet: the log grows, and if the packet is accepted it is new to the log. */
  lemma PacketIsNew(c: Config, s: State, d: Decoded)
    requires s.replay == After(c.nodeId, s.decoded)
    ensures var (replay, verdict) := Accept(s.replay, c.nodeId, d);
            var (log, after) := (Log(c.nodeId, s.decoded), Log(c.nodeId, s.decoded + [d]));
            && replay == After(c.nodeId, s.decoded + [d]) && |log| <= |after|
            && (forall e: (Sender, Word) :: Logged(log, e) ==> Logged(after, e))
            && (verdict == Accepted ==>
                  && Logged(after, (SenderOf(d), d.sequence))
                  && (|after| <= CACHE_CAPACITY ==> !Logged(log, (SenderOf(d), d.sequence))))
  {
    var decoded := s.decoded + [d];
    assert decoded[..|decoded| - 1] == s.decoded;
    LogGrows(c.nodeId, decoded);
    if |Log(c.nodeId, s.decoded)| <= CACHE_CAPACITY {
      ReplayProtectionIsExact(c.nodeId, s.decoded, d);
    }
    hide Accept, Find, Judge;
  }

  // ---- whole runs ----

  function Initial(workers: nat, capacity: nat): State {
    State(Start(), Router(seq(workers, _ => Queue([], capacity, None)), 0, 0, 0), Counters(0, 0, 0, 0, 0), Waiting, 0, 0,
          [], [], [], [], [])
  }

  ghost predicate CanRun(c: Config, s: State, steps: seq<Step>)
    decreases |steps|
  {
    steps == [] || (Enabled(s, steps[0]) && CanRun(c, Apply(c, s, steps[0]), steps[1..]))
  }

  ghost function Run(c: Config, s: State, steps: seq<Step>): State
    requires CanRun(c, s, steps)
    decreases |steps|
  {
    if steps == [] then s else Run(c, Apply(c, s, steps[0]), steps[1..])
  }

  lemma {:induction false} NothingQueuedInitially(queues: seq<Queue<ForwardPacket>>, tunnelOnly: bool)
    requires forall i :: 0 <= i < |queues| ==> queues[i].contents == []
    ensures Queued(queues, tunnelOnly) == 0
  {
    if queues != [] {
      NothingQueuedInitially(queues[1..], tunnelOnly);
    }
  }

  lemma {:induction false} RunKeeps(c: Config, s: State, steps: seq<Step>)
    requires Conserved(s) && EnteredOnce(c, s) && CanRun(c, s, steps)
    ensures Conserved(Run(c, s, steps)) && EnteredOnce(c, Run(c, s, steps))
    decreases |steps|
  {
    hide Conserved, EnteredOnce, Apply;
    if steps != [] {
      StepConserves(c, s, steps[0]);
      StepEntersOnce(c, s, steps[0]);
      RunKeeps(c, Apply(c, s, steps[0]), steps[1..]);
    }
  }

  /** Over every run, every interleaving of the tunnel thread with Workers that hand over and take: each
      datagram raises exactly one counter, and the balances hold with what is in flight; while at most
      128 senders were accepted, no (source, session, sequence) enters a Worker queue twice. */
  lemma TunnelIsExact(c: Config, workers: nat, capacity: nat, steps: seq<Step>)
    requires CanRun(c, Initial(workers, capacity), steps)
    ensures var t := Run(c, Initial(workers, capacity), steps);
            && Conserved(t)
            && (|Log(c.nodeId, t.decoded)| <= CACHE_CAPACITY ==>
                  forall i, j :: 0 <= i < j < |t.entered| ==> t.entered[i] != t.entered[j])
  {
    NothingQueuedInitially(Initial(workers, capacity).router.queues, true);
    NothingQueuedInitially(Initial(workers, capacity).router.queues, false);
    RunKeeps(c, Initial(workers, capacity), steps);
  }

  /** Read off the counters alone: "one counter per datagram" holds exactly while the thread waits,
      "delivered minus taken is still queued" exactly while it is not between a push and the delivery
      count, and "forwarded minus taken is still queued" exactly while no thread is between the two. */
  lemma CountersAgreeExactly(c: Config, workers: nat, capacity: nat, steps: seq<Step>)
    requires CanRun(c, Initial(workers, capacity), steps)
    ensures var t := Run(c, Initial(workers, capacity), steps);
            && (t.counters.Total() == |t.arrived| <==> t.phase == Waiting)
            && (t.counters.delivered - Took(t, true) == Queued(t.router.queues, true) <==> t.phase != Pushed && t.phase != Forwarded)
            && (t.router.forwarded - Took(t, false) == Queued(t.router.queues, false) <==> t.localPushed == 0 && t.phase != Pushed)
  {
    TunnelIsExact(c, workers, capacity, steps);
    hide Run, CanRun;
  }

  // ---- a Worker takes a packet before it is counted ----

  /** A packet for Worker 0 of node `nodeId`. */
  function Sample(nodeId: U16): Decoded {
    Decoded(Request, 1, 0, nodeId, 0, 1, 1, Ip4([0, 0, 0, 0], 0), [])
  }

  /** It arrives, is pushed, and is taken. */
  function TakenEarly(c: Config): seq<Step> {
    [Arrive(Wire(Sample(c.nodeId), c.current, c.mac)), Proceed, Taken(0)]
  }

  /** After that the delivered counter is one behind the Workers: minus one packet is "still queued". */
  lemma {:induction false} WorkerOutrunsTheCounters(c: Config, workers: nat, capacity: nat)
    requires workers > 0 && capacity > 0 && |c.current| >= MIN_SECRET_SIZE && c.nodeId != 0
    ensures CanRun(c, Initial(workers, capacity), TakenEarly(c))
    ensures var t := Run(c, Initial(workers, capacity), TakenEarly(c));
            && t.counters.delivered - Took(t, true) == -1 && t.router.forwarded - Took(t, false) == -1
            && Queued(t.router.queues, true) == 0 && Queued(t.router.queues, false) == 0
  {
    hide *;
    SampleTaken(c, workers, capacity);
    TunnelIsExact(c, workers, capacity, TakenEarly(c));
    CountedLate(Run(c, Initial(workers, capacity), TakenEarly(c)));
  }

  /** One packet pushed and nothing counted, and the queues are empty. */
  ghost predicate OneAhead(t: State) {
    t.phase == Pushed && t.counters.delivered == 0 && t.router.forwarded == 0 && Took(t, true) == 1 && Took(t, false) == 1 && t.localPushed == 0
  }

  lemma CountedLate(t: State)
    requires Conserved(t) && OneAhead(t)
    ensures t.counters.delivered - Took(t, true) == -1 && t.router.forwarded - Took(t, false) == -1
    ensures Queued(t.router.queues, true) == 0 && Queued(t.router.queues, false) == 0
  {
    hide Queued;
  }

  lemma {:induction false} SampleTaken(c: Config, workers: nat, capacity: nat)
    requires workers > 0 && capacity > 0 && |c.current| >= MIN_SECRET_SIZE && c.nodeId != 0
    ensures CanRun(c, Initial(workers, capacity), TakenEarly(c)) && OneAhead(Run(c, Initial(workers, capacity), TakenEarly(c)))
  {
    hide DecodeWithFallback, Wire, Accept, Start, Arrived;
    SampleArrives(c, workers, capacity);
    var s := Initial(workers, capacity);
    var steps := TakenEarly(c);
    var s1 := Apply(c, s, steps[0]);
    var s2 := Apply(c, s1, Proceed);
    assert s2.phase == Pushed && s2.router.queues[0].contents == [PacketOf(Sample(c.nodeId))];
    var s3 := Apply(c, s2, Taken(0));
    TookMore(s2, s3, Taking(0, PacketOf(Sample(c.nodeId))), true);
    TookMore(s2, s3, Taking(0, PacketOf(Sample(c.nodeId))), false);
    RunOfThree(c, s, steps[0], Proceed, Taken(0));
  }

  lemma RunOfThree(c: Config, s: State, a: Step, b: Step, d: Step)
    requires Enabled(s, a) && Enabled(Apply(c, s, a), b) && Enabled(Apply(c, Apply(c, s, a), b), d)
    ensures CanRun(c, s, [a, b, d]) && Run(c, s, [a, b, d]) == Apply(c, Apply(c, Apply(c, s, a), b), d)
  {
    hide Apply, Enabled;
    var steps := [a, b, d];
    var (s1, s2) := (Apply(c, s, a), Apply(c, Apply(c, s, a), b));
    var s3 := Apply(c, s2, d);
    assert [d][1..] == [] && [b, d][1..] == [d] && steps[1..] == [b, d];
    assert CanRun(c, s2, [d]) && Run(c, s2, [d]) == s3;
    assert CanRun(c, s1, [b, d]) && Run(c, s1, [b, d]) == s3;
  }

  lemma SampleArrives(c: Config, workers: nat, capacity: nat)
    requires workers > 0 && capacity > 0 && |c.current| >= MIN_SECRET_SIZE && c.nodeId != 0
    ensures var s := Initial(workers, capacity);
            var d := Sample(c.nodeId);
            var t := Arrived(c, s, Wire(d, c.current, c.mac));
            && WellFormed(t.replay) && t.phase == Handing(d) && t.router == s.router && t.counters == s.counters
            && t.localPushed == 0 && t.taken == []
            && RouteOutcome(s.router, 0, PacketOf(d)).None?
  {
    DecodeOfWire(Sample(c.nodeId), c.current, c.mac);
    assert Find(Start().cache, SenderOf(Sample(c.nodeId)), 0).None?;
    hide DecodePacket, Wire;
  }

  // ---- one datagram with nobody in between ----

  /** The loop body for one datagram, undisturbed. */
  function Receive(c: Config, s: State, bytes: seq<Byte>): State
    requires WellFormed(s.replay)
  {
    var t := s.(arrived := s.arrived + [bytes]);
    match DecodeWithFallback(bytes, c.current, c.previous, c.mac)
    case Err(_) => t.(counters := s.counters.(decodeFailures := s.counters.decodeFailures + 1))
    case Ok(d) =>
      var (replay, verdict) := Accept(s.replay, c.nodeId, d);
      var u := t.(replay := replay, decoded := s.decoded + [d]);
      match verdict
      case Misrouted => u.(counters := s.counters.(misrouted := s.counters.misrouted + 1))
      case Replayed => u.(counters := s.counters.(replayed := s.counters.replayed + 1))
      case Accepted =>
        var v := u.(router := Forward(s.router, d.targetWorker, PacketOf(d)));
        if RouteOutcome(s.router, d.targetWorker, PacketOf(d)).Some? then
          v.(counters := s.counters.(handoffFailures := s.counters.handoffFailures + 1))
        else
          v.(counters := s.counters.(delivered := s.counters.delivered + 1),
             entered := s.entered + [(SenderOf(d), d.sequence)], handed := s.handed + [FromTunnel(d)])
  }

  /** The thread on its own until it waits again, for at most so many accesses. */
  function Finished(s: State, accesses: nat): State
    decreases accesses
  {
    if s.phase == Waiting || accesses == 0 then s else Finished(Proceeded(s), accesses - 1)
  }

  /** The loop body is the thread's own steps in a row; three accesses after the arrival are the most. */
  lemma ReceiveIsItsSteps(c: Config, s: State, bytes: seq<Byte>)
    requires Enabled(s, Arrive(bytes))
    ensures Receive(c, s, bytes) == Finished(Apply(c, s, Arrive(bytes)), 3) && Receive(c, s, bytes).phase == Waiting
  {
    hide DecodeWithFallback, Accept, RouteOutcome;
    var s1 := Arrived(c, s, bytes);
    var s2 := if s1.phase == Waiting then s1 else Proceeded(s1);
    var s3 := if s2.phase == Waiting then s2 else Proceeded(s2);
    var s4 := if s3.phase == Waiting then s3 else Proceeded(s3);
    assert Finished(s3, 1) == s4 && Finished(s2, 2) == s4 && Finished(s1, 3) == s4;
  }

  // ---- the receiver object ----

  class Tunnel {
    const config: Config
    const cache: array<Option<Window>>
    var replayNext: nat
    var counters: Counters
    var router: Router
    ghost var arrived: seq<seq<Byte>>
    ghost var decoded: seq<Decoded>
    ghost var entered: seq<(Sender, Word)>
    ghost var handed: seq<HandOver>

    ghost predicate Valid()
      reads this, cache
    {
      cache.Length == CACHE_CAPACITY && replayNext < CACHE_CAPACITY
    }

    ghost function Table(): Replay
      reads this, cache
    {
      Replay(cache[..], replayNext)
    }

    /** The receiver as a value, between two datagrams; what the Workers did is not its own state. */
    ghost function View(others: State): State
      reads this, cache
    {
      State(Table(), router, counters, Waiting, others.localPushed, others.localDropping, arrived, decoded, entered, handed,
            others.taken)
    }

    constructor (c: Config, workers: nat, capacity: nat)
      ensures Valid() && fresh(cache) && config == c && View(Initial(workers, capacity)) == Initial(workers, capacity)
    {
      config := c;
      cache := new Option<Window>[CACHE_CAPACITY](_ => None);
      replayNext := 0;
      counters := Counters(0, 0, 0, 0, 0);
      router := Router(seq(workers, _ => Queue([], capacity, None)), 0, 0, 0);
      arrived, decoded, entered, handed := [], [], [], [];
      new;
      assert cache[..] == Start().cache;
    }

    /** Scans the table for the sender's window; judges, or opens one in the next slot. */
    method AcceptReplay(d: Decoded) returns (ok: bool)
      requires Valid()
      modifies this`counters, this`replayNext, cache
      ensures Valid()
      ensures var (table, verdict) := Accept(old(Table()), config.nodeId, d);
              && Table() == table && (ok <==> verdict == Accepted)
              && counters == match verdict
                             case Accepted => old(counters)
                             case Misrouted => old(counters).(misrouted := old(counters).misrouted + 1)
                             case Replayed => old(counters).(replayed := old(counters).replayed + 1)
    {
      hide Judge;
      if d.targetNode != config.nodeId {
        counters := counters.(misrouted := counters.misrouted + 1);
        return false;
      }
      ghost var before := cache[..];
      for i := 0 to cache.Length
        invariant cache[..] == before && counters == old(counters) && replayNext == old(replayNext)
        invariant Find(before, SenderOf(d), 0) == Find(before, SenderOf(d), i)
      {
        if cache[i].Some? && cache[i].value.sender == SenderOf(d) {
          var (w, accepted) := Judge(cache[i].value, d.sequence);
          cache[i] := Some(w);
          if !accepted {
            counters := counters.(replayed := counters.replayed + 1);
          }
          assert cache[..] == before[i := Some(w)];
          return accepted;
        }
      }
      cache[replayNext] := Some(Window(SenderOf(d), d.sequence, 1));
      assert cache[..] == before[replayNext := Some(Window(SenderOf(d), d.sequence, 1))];
      replayNext := (replayNext + 1) % CACHE_CAPACITY;
      return true;
    }

    /** The body of the receive loop for one datagram, when no other thread comes in between. */
    method ReceiveOne(bytes: seq<Byte>)
      requires Valid()
      modifies this, cache
      ensures Valid()
      ensures forall others :: View(others) == Receive(config, old(View(others)), bytes)
    {
      hide DecodeWithFallback, Accept;
      arrived := arrived + [bytes];
      var r := DecodeWithFallback(bytes, config.current, config.previous, config.mac);
      if r.Err? {
        counters := counters.(decodeFailures := counters.decodeFailures + 1);
        return;
      }
      var d := r.value;
      decoded := decoded + [d];
      var ok := AcceptReplay(d);
      if !ok {
        return;
      }
      var error := RouteOutcome(router, d.targetWorker, PacketOf(d));
      router := Forward(router, d.targetWorker, PacketOf(d));
      if error.Some? {
        counters := counters.(handoffFailures := counters.handoffFailures + 1);
        return;
      }
      counters := counters.(delivered := counters.delivered + 1);
      entered := entered + [(SenderOf(d), d.sequence)];
      handed := handed + [FromTunnel(d)];
    }
  }
}
