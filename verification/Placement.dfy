/** Rendezvous choice over an abstract score: the candidate nobody beats. */
module Rendezvous {
  import opened Options
  import opened Words

  type NodeId = x: int | 0 <= x < 0x1_0000

  /** A score never ties two nodes. */
  ghost predicate NeverTies(score: NodeId -> Word) {
    forall a, b :: score(a) == score(b) ==> a == b
  }

  /** The reference definition: no candidate beats the winner. */
  ghost predicate IsHome(score: NodeId -> Word, nodes: seq<NodeId>, home: Option<NodeId>) {
    match home
    case None => nodes == []
    case Some(n) => n in nodes && forall m :: m in nodes ==> score(m) <= score(n)
  }

  /** The winner as a function of the candidate list. */
  function Home(score: NodeId -> Word, nodes: seq<NodeId>): (home: Option<NodeId>)
    ensures IsHome(score, nodes, home)
  {
    if nodes == [] then None else
      var rest := Home(score, nodes[1..]);
      if rest.None? || score(nodes[0]) > score(rest.value) then Some(nodes[0]) else rest
  }

  lemma HomeIsUnique(score: NodeId -> Word, nodes: seq<NodeId>, a: Option<NodeId>, b: Option<NodeId>)
    requires NeverTies(score) && IsHome(score, nodes, a) && IsHome(score, nodes, b)
    ensures a == b
  {
  }

  ghost predicate SameNodes(a: seq<NodeId>, b: seq<NodeId>) {
    forall n :: n in a <==> n in b
  }

  /** The home depends on the set of candidates only: order and repetition are irrelevant. */
  lemma HomeDependsOnSetOnly(score: NodeId -> Word, a: seq<NodeId>, b: seq<NodeId>)
    requires NeverTies(score) && SameNodes(a, b)
    ensures Home(score, a) == Home(score, b)
  {
    assert a != [] ==> a[0] in a;
    assert b != [] ==> b[0] in b;
    HomeIsUnique(score, b, Home(score, a), Home(score, b));
  }

  /** Minimal movement: adding a node moves a key only to that node; read the other way, removing
      a node moves exactly the keys that were homed there. */
  lemma MinimalMovement(score: NodeId -> Word, before: seq<NodeId>, after: seq<NodeId>, node: NodeId)
    requires NeverTies(score) && node !in before
    requires forall m :: m in after <==> m in before || m == node
    ensures Home(score, after) == Home(score, before) <==> Home(score, after) != Some(node)
  {
    assert node in after;
    var home := Home(score, after);
    if home != Some(node) {
      assert home.value in before;
      HomeIsUnique(score, before, home, Home(score, before));
    }
  }

  /** Whatever joins or leaves, a key moves only with cause: its old home is gone or its new home
      is new. */
  lemma MovesOnlyWithCause(score: NodeId -> Word, before: seq<NodeId>, after: seq<NodeId>)
    requires NeverTies(score) && before != [] && after != []
    requires Home(score, before) != Home(score, after)
    ensures Home(score, before).value !in after || Home(score, after).value !in before
  {
    var a, b := Home(score, before).value, Home(score, after).value;
    assert a in after && b in before ==> score(a) == score(b);
  }
}

/** Keys, scores and the placement view of one Worker. */
module Placement {
  import opened Options
  import opened Words
  import opened Rendezvous

  type RealmId = x: int | 0 <= x < 0x1_0000

  const GOLDEN: Word := 0x9E37_79B9_7F4A_7C15
  const NODE_SALT: Word := 0xC2B2_AE3D_27D4_EB4F
  const REALM_SALT: Word := 0xD6E8_FEB8_6659_FD93

  function Score(hashed: Word, node: NodeId): Word {
    MulWrap(XorWord(hashed, MulWrap(node, NODE_SALT)), GOLDEN)
  }

  function Key(realm: RealmId, destId: Word): Word {
    MulWrap(XorWord(destId, MulWrap(realm, REALM_SALT)), GOLDEN)
  }

  // Each multiplier is odd, so multiplying by it modulo 2^64 can be undone.

  lemma GoldenInjective(a: Word, b: Word)
    requires MulWrap(a, GOLDEN) == MulWrap(b, GOLDEN)
    ensures a == b
  {
    MulUndoes(a, GOLDEN, 0xF1DE_83E1_9937_733D, 0x957B_BF35_006E_D677);
    MulUndoes(b, GOLDEN, 0xF1DE_83E1_9937_733D, 0x957B_BF35_006E_D677);
  }

  lemma NodeSaltInjective(a: Word, b: Word)
    requires MulWrap(a, NODE_SALT) == MulWrap(b, NODE_SALT)
    ensures a == b
  {
    MulUndoes(a, NODE_SALT, 0x0BA7_9078_168D_4BAF, 0x08DD_1DEC_2186_0607);
    MulUndoes(b, NODE_SALT, 0x0BA7_9078_168D_4BAF, 0x08DD_1DEC_2186_0607);
  }

  lemma RealmSaltInjective(a: Word, b: Word)
    requires MulWrap(a, REALM_SALT) == MulWrap(b, REALM_SALT)
    ensures a == b
  {
    MulUndoes(a, REALM_SALT, 0xCFEE_444D_8B59_A89B, 0xAE8E_6BEA_E6EB_4B34);
    MulUndoes(b, REALM_SALT, 0xCFEE_444D_8B59_A89B, 0xAE8E_6BEA_E6EB_4B34);
  }

  /** A key can be read back: undo the multiplication, then the realm's salt, and the destination is there. */
  lemma KeyUndone(realm: RealmId, destId: Word)
    ensures XorWord(MulWrap(Key(realm, destId), 0xF1DE_83E1_9937_733D), realm * 0xD6E8_FEB8_6659_FD93 % WORD) == destId
  {
    hide Xor;
    var salt := MulWrap(realm, REALM_SALT);
    MulUndoes(XorWord(destId, salt), GOLDEN, 0xF1DE_83E1_9937_733D, 0x957B_BF35_006E_D677);
    XorUndoes(destId, salt);
  }

  /** And so can the key behind a node's score. */
  lemma ScoreUndone(hashed: Word, node: NodeId)
    ensures XorWord(MulWrap(Score(hashed, node), 0xF1DE_83E1_9937_733D), node * 0xC2B2_AE3D_27D4_EB4F % WORD) == hashed
  {
    hide Xor;
    var salt := MulWrap(node, NODE_SALT);
    MulUndoes(XorWord(hashed, salt), GOLDEN, 0xF1DE_83E1_9937_733D, 0x957B_BF35_006E_D677);
    XorUndoes(hashed, salt);
  }

  /** No two nodes ever tie: for every key, distinct ids get distinct scores. */
  lemma ScoresAreDistinct(hashed: Word, a: NodeId, b: NodeId)
    requires Score(hashed, a) == Score(hashed, b)
    ensures a == b
  {
    hide MulWrap, Xor;
    var x, y := MulWrap(a, NODE_SALT), MulWrap(b, NODE_SALT);
    GoldenInjective(XorWord(hashed, x), XorWord(hashed, y));
    XorInjective(hashed, x, y);
    NodeSaltInjective(a, b);
  }

  /** Within a realm no two destinations share a key; for one destination no two realms do. */
  lemma KeysAreDistinct(realm: RealmId, destId: Word, realm': RealmId, destId': Word)
    requires Key(realm, destId) == Key(realm', destId')
    ensures realm == realm' <==> destId == destId'
  {
    hide MulWrap, Xor;
    var x, y := MulWrap(realm, REALM_SALT), MulWrap(realm', REALM_SALT);
    GoldenInjective(XorWord(destId, x), XorWord(destId', y));
    if destId == destId' {
      XorInjective(destId, x, y);
      RealmSaltInjective(realm, realm');
    }
    if realm == realm' {
      XorCommutes(destId, x);
      XorCommutes(destId', x);
      XorInjective(x, destId, destId');
    }
  }

  function ScoreOf(hashed: Word): NodeId -> Word {
    (node: NodeId) => Score(hashed, node)
  }

  lemma ScoreNeverTies(hashed: Word)
    ensures NeverTies(ScoreOf(hashed))
  {
    hide Score;
    forall a, b | ScoreOf(hashed)(a) == ScoreOf(hashed)(b) ensures a == b {
      ScoresAreDistinct(hashed, a, b);
    }
  }

  function HomeNode(hashed: Word, nodes: seq<NodeId>): Option<NodeId> {
    Home(ScoreOf(hashed), nodes)
  }

  /** The scan: keep the running best, replace it on a strictly larger score. */
  method FindHomeNode(hashed: Word, nodes: seq<NodeId>) returns (best: Option<NodeId>)
    ensures best == HomeNode(hashed, nodes)
    ensures IsHome(ScoreOf(hashed), nodes, best)
  {
    hide Score;
    best := None;
    var bestScore: Word := 0;
    for i := 0 to |nodes|
      invariant best == None <==> i == 0
      invariant best.Some? ==> best.value in nodes[..i] && bestScore == Score(hashed, best.value)
      invariant forall k :: 0 <= k < i ==> Score(hashed, nodes[k]) <= bestScore
    {
      var score := Score(hashed, nodes[i]);
      if best == None || score > bestScore {
        best := Some(nodes[i]);
        bestScore := score;
      }
    }
    assert nodes[..|nodes|] == nodes;
    assert IsHome(ScoreOf(hashed), nodes, best);
    ScoreNeverTies(hashed);
    HomeIsUnique(ScoreOf(hashed), nodes, best, HomeNode(hashed, nodes));
  }

  /** Every node computes the same home from its own permutation of the same candidates. */
  lemma SameCandidatesSameHome(hashed: Word, a: seq<NodeId>, b: seq<NodeId>)
    requires SameNodes(a, b)
    ensures HomeNode(hashed, a) == HomeNode(hashed, b)
  {
    hide Score;
    ScoreNeverTies(hashed);
    HomeDependsOnSetOnly(ScoreOf(hashed), a, b);
  }

  /** When a node joins, exactly the keys it becomes the home of move. */
  lemma JoinMovesOnlyToTheNewNode(hashed: Word, before: seq<NodeId>, after: seq<NodeId>, node: NodeId)
    requires node !in before && forall m :: m in after <==> m in before || m == node
    ensures HomeNode(hashed, after) == HomeNode(hashed, before) <==> HomeNode(hashed, after) != Some(node)
  {
    hide Score;
    ScoreNeverTies(hashed);
    MinimalMovement(ScoreOf(hashed), before, after, node);
  }

  /** When a node leaves, exactly the keys homed there move. */
  lemma LeaveMovesOnlyItsKeys(hashed: Word, before: seq<NodeId>, after: seq<NodeId>, node: NodeId)
    requires node !in after && forall m :: m in before <==> m in after || m == node
    ensures HomeNode(hashed, after) == HomeNode(hashed, before) <==> HomeNode(hashed, before) != Some(node)
  {
    hide Score;
    ScoreNeverTies(hashed);
    MinimalMovement(ScoreOf(hashed), after, before, node);
  }

  // ---- the view of one Worker ----

  datatype Strategy = Broadcast | Affinity

  datatype Location = Location(node: NodeId, worker: nat)

  /** `(hashed >> 32) % worker_count`, zero for at most one Worker. */
  function HomeWorker(hashed: Word, workerCount: nat): nat {
    if workerCount <= 1 then 0 else hashed / 0x1_0000_0000 % workerCount
  }

  /** Keys are dealt to the Workers by their upper half: the Worker exists, two keys share one exactly when
      the number of Workers divides the difference of their upper halves, and the first `n` upper halves
      go to the Workers in order. */
  lemma HomeWorkerDeals(a: Word, b: Word, n: nat)
    requires n > 0
    ensures HomeWorker(a, n) < n
    ensures HomeWorker(a, n) == HomeWorker(b, n) <==> (a / 0x1_0000_0000 - b / 0x1_0000_0000) % n == 0
    ensures a / 0x1_0000_0000 < n ==> HomeWorker(a, n) == a / 0x1_0000_0000
  {
    hide HomeWorker;
    WorkerIsRemainder(a, n);
    WorkerIsRemainder(b, n);
    var (x, y) := (a / 0x1_0000_0000, b / 0x1_0000_0000);
    SameRemainder(x, y, n);
    if x < n {
      RemainderUnique(x, n, 0, x);
    }
  }

  lemma WorkerIsRemainder(hashed: Word, n: nat)
    requires n > 0
    ensures HomeWorker(hashed, n) == hashed / 0x1_0000_0000 % n
  {
    if n == 1 {
      DivModUnique(hashed / 0x1_0000_0000, 1, hashed / 0x1_0000_0000, 0);
    }
  }

  lemma SameRemainder(x: nat, y: nat, n: nat)
    requires n > 0
    ensures x % n < n && (x % n == y % n <==> (x - y) % n == 0)
  {
    var (p, q) := (x / n, y / n);
    assert x == n * p + x % n && y == n * q + y % n;
    var d := x % n - y % n;
    if d >= 0 {
      assert x - y == n * (p - q) + d;
      RemainderUnique(x - y, n, p - q, d);
    } else {
      assert x - y == n * (p - q - 1) + (n + d);
      RemainderUnique(x - y, n, p - q - 1, n + d);
    }
  }

  lemma RemainderUnique(x: int, n: nat, q: int, r: nat)
    requires r < n && x == n * q + r
    ensures x % n == r
  {
    var e := q - x / n;
    assert n * e == x % n - r;
    MultipleIsLarge(n, e);
  }

  lemma MultipleIsLarge(n: nat, e: int)
    ensures (e >= 1 ==> n * e >= n) && (e <= -1 ==> n * e <= -(n as int))
  {
    if e >= 1 {
      assert n * (e - 1) >= 0;
    } else if e <= -1 {
      assert n * (-e - 1) >= 0;
    }
  }

  datatype View = View(strategy: Strategy, self: Location, workerCount: nat, nodes: seq<NodeId>, prevNodes: seq<NodeId>) {
    /** The home node; this node itself while there is no candidate at all. */
    function CurrentNode(hashed: Word): NodeId {
      match HomeNode(hashed, nodes)
      case Some(n) => n
      case None => self.node
    }

    function Home(realm: RealmId, destId: Word): Option<Location> {
      if strategy == Broadcast then None else
        var hashed := Key(realm, destId);
        Some(Location(CurrentNode(hashed), HomeWorker(hashed, workerCount)))
    }

    function PreviousHomeNode(realm: RealmId, destId: Word): Option<NodeId> {
      if strategy == Broadcast || prevNodes == [] then None else
        var hashed := Key(realm, destId);
        match HomeNode(hashed, prevNodes)
        case None => None
        case Some(previous) => if previous == CurrentNode(hashed) then None else Some(previous)
    }

    function Candidates(realm: RealmId, destId: Word): seq<Location> {
      match Home(realm, destId)
      case None => []
      case Some(current) =>
        match PreviousHomeNode(realm, destId)
        case None => [current]
        case Some(node) => [current, Location(node, current.worker)]
    }

    predicate IsHome(realm: RealmId, destId: Word) {
      var list := Candidates(realm, destId);
      |list| == 0 || self in list
    }

    predicate IsHomeNode(realm: RealmId, destId: Word) {
      var list := Candidates(realm, destId);
      |list| == 0 || exists i :: 0 <= i < |list| && list[i].node == self.node
    }
  }

  /** Where a key lives: nowhere in particular under broadcast; else on the candidate that nobody outscores,
      this node while there is no candidate, on the Worker its upper half is dealt to. */
  lemma HomeIs(v: View, realm: RealmId, destId: Word)
    ensures var hashed := Key(realm, destId);
            match v.Home(realm, destId)
            case None => v.strategy == Broadcast
            case Some(home) =>
              && v.strategy == Affinity
              && (v.nodes == [] ==> home.node == v.self.node)
              && (v.nodes != [] ==> home.node in v.nodes && forall m :: m in v.nodes ==> Score(hashed, m) <= Score(hashed, home.node))
              && (v.workerCount == 0 ==> home.worker == 0)
              && (v.workerCount > 0 ==>
                    home.worker < v.workerCount && (hashed / 0x1_0000_0000 - home.worker) % v.workerCount == 0)
  {
    hide Key, Score;
    var hashed := Key(realm, destId);
    if v.workerCount > 0 {
      WorkerIsRemainder(hashed, v.workerCount);
      RemainderDivides(hashed / 0x1_0000_0000, v.workerCount);
    }
    if v.strategy == Affinity && v.nodes != [] {
      assert IsHome(ScoreOf(hashed), v.nodes, Some(v.CurrentNode(hashed)));
      forall m | m in v.nodes ensures Score(hashed, m) <= Score(hashed, v.CurrentNode(hashed)) {
        assert ScoreOf(hashed)(m) <= ScoreOf(hashed)(v.CurrentNode(hashed));
      }
    }
  }

  lemma RemainderDivides(x: nat, n: nat)
    requires n > 0
    ensures x % n < n && (x - x % n) % n == 0
  {
    RemainderUnique(x - x % n, n, x / n, 0);
  }

  /** In the double-lookup window the candidates are exactly the new home and the old one, in that
      order and without repeats, on the same Worker. */
  lemma CandidatesAreOldAndNewHome(v: View, realm: RealmId, destId: Word)
    requires v.strategy == Affinity
    ensures var hashed := Key(realm, destId);
            var list := v.Candidates(realm, destId);
            && 1 <= |list| <= 2 && list[0].node == v.CurrentNode(hashed)
            && (forall i :: 0 <= i < |list| ==> list[i].worker == HomeWorker(hashed, v.workerCount))
            && (|list| == 2 ==> list[0] != list[1])
            && (forall n :: (exists i :: 0 <= i < |list| && list[i].node == n) <==>
                  n == v.CurrentNode(hashed) || HomeNode(hashed, v.prevNodes) == Some(n))
  {
    hide Score, Key;
    var hashed := Key(realm, destId);
    var list := v.Candidates(realm, destId);
    assert list[0].node == v.CurrentNode(hashed);
    assert v.prevNodes != [] ==> HomeNode(hashed, v.prevNodes).Some?;
    assert |list| == 2 ==> list[1].node == HomeNode(hashed, v.prevNodes).value;
    forall n | n == v.CurrentNode(hashed) || HomeNode(hashed, v.prevNodes) == Some(n)
      ensures exists i :: 0 <= i < |list| && list[i].node == n
    {
      assert list[0].node == n || (|list| == 2 && list[1].node == n);
    }
  }

  /** A connection sitting at its old or its new home is accepted there, and nowhere else. */
  lemma AcceptedExactlyAtEitherHome(v: View, realm: RealmId, destId: Word)
    ensures v.IsHomeNode(realm, destId) <==>
              || v.strategy == Broadcast
              || v.self.node == v.CurrentNode(Key(realm, destId))
              || HomeNode(Key(realm, destId), v.prevNodes) == Some(v.self.node)
    ensures v.IsHome(realm, destId) <==>
              || v.strategy == Broadcast
              || (v.self.worker == HomeWorker(Key(realm, destId), v.workerCount) && v.IsHomeNode(realm, destId))
  {
    if v.strategy == Affinity {
      CandidatesAreOldAndNewHome(v, realm, destId);
    }
  }

  /** While two nodes' windows cover each other, a connection placed by one view is never turned
      away by the other: every home either of them can name is a home the other accepts. */
  lemma WindowCoversBothViews(v: View, w: View, realm: RealmId, destId: Word)
    requires v.strategy == Affinity && w.strategy == Affinity && v.nodes != []
    requires SameNodes(v.nodes, w.nodes) || SameNodes(v.nodes, w.prevNodes)
    requires w.self.node == v.CurrentNode(Key(realm, destId))
    ensures w.IsHomeNode(realm, destId)
  {
    hide Score, Key;
    var hashed := Key(realm, destId);
    if SameNodes(v.nodes, w.nodes) {
      SameCandidatesSameHome(hashed, v.nodes, w.nodes);
      assert v.nodes[0] in w.nodes;
    } else {
      SameCandidatesSameHome(hashed, v.nodes, w.prevNodes);
    }
    AcceptedExactlyAtEitherHome(w, realm, destId);
  }
}

/** The node list fed to placement: this node first, then the forwardable others in id order. */
module NodeSnapshots {
  import opened Options
  import opened Words
  import opened Rendezvous
  import opened Placement

  datatype Status = Alive | Suspect | Dead | Left

  predicate Forwardable(view: map<NodeId, Status>, id: NodeId) {
    id in view && (view[id] == Alive || view[id] == Suspect)
  }

  /** What the scan from `id` on still adds when `room` places are left. */
  function Others(self: NodeId, view: map<NodeId, Status>, id: nat, maxNodes: nat, room: nat): (r: seq<NodeId>)
    requires maxNodes <= 0xFFFF
    ensures |r| <= room && forall n :: n in r ==> id <= n < maxNodes && n != self && Forwardable(view, n)
    ensures room >= maxNodes - id ==> forall n: NodeId :: id <= n < maxNodes && n != self && Forwardable(view, n) ==> n in r
    decreases maxNodes - id
  {
    if id >= maxNodes || room == 0 then []
    else if id == self || !Forwardable(view, id) then Others(self, view, id + 1, maxNodes, room)
    else [id] + Others(self, view, id + 1, maxNodes, room - 1)
  }

  function Snapshot(self: NodeId, maxNodes: nat, view: Option<map<NodeId, Status>>, capacity: nat): seq<NodeId>
    requires maxNodes <= 0xFFFF
  {
    if capacity == 0 then []
    else if view.None? then [self]
    else [self] + Others(self, view.value, 1, maxNodes, capacity - 1)
  }

  /** `count` nodes are copied, the scan is at `id`, and the rest of the buffer is as it was. */
  ghost predicate Copied(self: NodeId, maxNodes: nat, view: map<NodeId, Status>, b: seq<NodeId>, before: seq<NodeId>, count: nat, id: nat)
    requires maxNodes <= 0xFFFF
  {
    && 1 <= count <= |b| == |before| && b[count..] == before[count..]
    && b[..count] + Others(self, view, id, maxNodes, |b| - count) == Snapshot(self, maxNodes, Some(view), |b|)
  }

  lemma CopyBegins(self: NodeId, maxNodes: nat, view: map<NodeId, Status>, before: seq<NodeId>)
    requires maxNodes <= 0xFFFF && before != []
    ensures Copied(self, maxNodes, view, before[0 := self], before, 1, 1)
  {
    assert before[0 := self][..1] == [self];
    hide Others;
  }

  lemma CopyAppends(self: NodeId, maxNodes: nat, view: map<NodeId, Status>, b: seq<NodeId>, before: seq<NodeId>, count: nat, id: nat)
    requires maxNodes <= 0xFFFF && Copied(self, maxNodes, view, b, before, count, id)
    requires id < maxNodes && count < |b| && id != self && Forwardable(view, id)
    ensures Copied(self, maxNodes, view, b[count := id], before, count + 1, id + 1)
  {
    var later := Others(self, view, id + 1, maxNodes, |b| - count - 1);
    assert Others(self, view, id, maxNodes, |b| - count) == [id] + later;
    hide Others, Snapshot;
    assert b[count := id][..count + 1] == b[..count] + [id];
    assert b[..count] + ([id] + later) == b[..count] + [id] + later;
    assert b[count + 1..] == b[count..][1..] && before[count + 1..] == before[count..][1..];
  }

  lemma CopySkips(self: NodeId, maxNodes: nat, view: map<NodeId, Status>, b: seq<NodeId>, before: seq<NodeId>, count: nat, id: nat)
    requires maxNodes <= 0xFFFF && Copied(self, maxNodes, view, b, before, count, id)
    requires id < maxNodes && count < |b| && (id == self || !Forwardable(view, id))
    ensures Copied(self, maxNodes, view, b, before, count, id + 1)
  {
    hide Snapshot;
  }

  lemma CopyEnds(self: NodeId, maxNodes: nat, view: map<NodeId, Status>, b: seq<NodeId>, before: seq<NodeId>, count: nat, id: nat)
    requires maxNodes <= 0xFFFF && Copied(self, maxNodes, view, b, before, count, id) && (id >= maxNodes || count == |b|)
    ensures count <= |b| == |before| && b[..count] == Snapshot(self, maxNodes, Some(view), |b|) && b[count..] == before[count..]
  {
    hide Snapshot;
  }

  /** Copies the snapshot into the caller's buffer. */
  method NodeSnapshot(self: NodeId, maxNodes: nat, view: Option<map<NodeId, Status>>, buf: array<NodeId>)
    returns (count: nat)
    requires maxNodes <= 0xFFFF
    modifies buf
    ensures count <= buf.Length && buf[..count] == Snapshot(self, maxNodes, view, buf.Length)
    ensures buf[count..] == old(buf[count..])
  {
    hide Others, Copied;
    if buf.Length == 0 {
      return 0;
    }
    ghost var before := buf[..];
    buf[0] := self;
    count := 1;
    if view.None? {
      return;
    }
    CopyBegins(self, maxNodes, view.value, before);
    assert buf[..] == before[0 := self];
    var id := 1;
    while id < maxNodes && count < buf.Length
      invariant 1 <= id && count <= buf.Length && Copied(self, maxNodes, view.value, buf[..], before, count, id)
    {
      if id != self && Forwardable(view.value, id) {
        CopyAppends(self, maxNodes, view.value, buf[..], before, count, id);
        PutNode(buf, count, id);
        count := count + 1;
      } else {
        CopySkips(self, maxNodes, view.value, buf[..], before, count, id);
      }
      id := id + 1;
    }
    CopyEnds(self, maxNodes, view.value, buf[..], before, count, id);
  }

  method PutNode(buf: array<NodeId>, at: nat, id: NodeId)
    requires at < buf.Length
    modifies buf
    ensures buf[..] == old(buf[..])[at := id]
  {
    buf[at] := id;
  }

  predicate Ascending(r: seq<NodeId>) {
    forall i, j :: 0 <= i < j < |r| ==> r[i] < r[j]
  }

  lemma AscendingWith(x: NodeId, r: seq<NodeId>)
    requires Ascending(r) && forall m :: m in r ==> x < m
    ensures Ascending([x] + r)
  {
    forall j | 1 <= j < |[x] + r| ensures x < ([x] + r)[j] {
      assert ([x] + r)[j] in r;
    }
  }

  /** Everybody eligible from `id` on is there, but for the highest ids when the room runs out. */
  ghost predicate AllButHighest(self: NodeId, view: map<NodeId, Status>, id: nat, maxNodes: nat, room: nat, r: seq<NodeId>) {
    forall n: NodeId :: id <= n < maxNodes && n != self && Forwardable(view, n) && n !in r ==> |r| == room && forall m :: m in r ==> m < n
  }

  lemma AllButHighestSkips(self: NodeId, view: map<NodeId, Status>, id: nat, maxNodes: nat, room: nat, r: seq<NodeId>)
    requires AllButHighest(self, view, id + 1, maxNodes, room, r) && id < maxNodes <= 0xFFFF && (id == self || !Forwardable(view, id))
    ensures AllButHighest(self, view, id, maxNodes, room, r)
  {
    hide Forwardable;
  }

  lemma AllButHighestWith(self: NodeId, view: map<NodeId, Status>, id: NodeId, maxNodes: nat, room: nat, r: seq<NodeId>)
    requires AllButHighest(self, view, id + 1, maxNodes, room, r)
    ensures AllButHighest(self, view, id, maxNodes, room + 1, [id] + r)
  {
    hide Forwardable;
    forall m | m in [id] + r ensures m == id || m in r {
    }
    forall n | n in r ensures n in [id] + r {
    }
    assert ([id] + r)[0] == id;
  }

  lemma {:induction false} OthersInOrder(self: NodeId, view: map<NodeId, Status>, id: nat, maxNodes: nat, room: nat)
    requires maxNodes <= 0xFFFF
    ensures var r := Others(self, view, id, maxNodes, room); Ascending(r) && AllButHighest(self, view, id, maxNodes, room, r)
    decreases maxNodes - id
  {
    hide Forwardable;
    if id >= maxNodes || room == 0 {
      return;
    }
    hide AllButHighest, Ascending;
    if id == self || !Forwardable(view, id) {
      OthersInOrder(self, view, id + 1, maxNodes, room);
      AllButHighestSkips(self, view, id, maxNodes, room, Others(self, view, id + 1, maxNodes, room));
    } else {
      OthersInOrder(self, view, id + 1, maxNodes, room - 1);
      var rest := Others(self, view, id + 1, maxNodes, room - 1);
      AscendingWith(id, rest);
      AllButHighestWith(self, view, id, maxNodes, room - 1, rest);
    }
  }

  /** This node first, then the others that are alive or suspected, in id order; if the buffer is too
      short the highest ids are missing. */
  lemma {:induction false} SnapshotIs(self: NodeId, maxNodes: nat, view: map<NodeId, Status>, capacity: nat)
    requires maxNodes <= 0xFFFF && 0 < capacity
    ensures Snapshot(self, maxNodes, None, capacity) == [self]
    ensures var r := Snapshot(self, maxNodes, Some(view), capacity);
            && 1 <= |r| <= capacity && r[0] == self
            && Ascending(r[1..])
            && (forall n :: n in r[1..] ==> 1 <= n < maxNodes && n != self && n in view && view[n] in {Alive, Suspect})
            && (forall n: NodeId :: 1 <= n < maxNodes && n != self && n in view && view[n] in {Alive, Suspect} && n !in r[1..] ==>
                  |r| == capacity && forall m :: m in r[1..] ==> m < n)
  {
    OthersInOrder(self, view, 1, maxNodes, capacity - 1);
    var others := Others(self, view, 1, maxNodes, capacity - 1);
    var r := Snapshot(self, maxNodes, Some(view), capacity);
    assert r[1..] == others;
    assert forall n: NodeId :: Forwardable(view, n) <==> n in view && view[n] in {Alive, Suspect};
    hide Others, Forwardable;
  }

  /** With the buffer the callers provide, the snapshot is this node plus every forwardable one. */
  lemma SnapshotMembers(self: NodeId, maxNodes: nat, view: map<NodeId, Status>, capacity: nat)
    requires maxNodes <= 0xFFFF && 1 <= capacity && maxNodes <= capacity
    ensures forall n: NodeId :: n in Snapshot(self, maxNodes, Some(view), capacity) <==>
              n == self || (1 <= n < maxNodes && Forwardable(view, n))
  {
    var others := Others(self, view, 1, maxNodes, capacity - 1);
    assert Snapshot(self, maxNodes, Some(view), capacity) == [self] + others;
  }

  /** Two nodes that see the same cluster agree on the home of every key, although each puts its
      own id first. */
  lemma NodesAgreeOnEveryKey(a: NodeId, b: NodeId, maxNodes: nat, viewA: map<NodeId, Status>, viewB: map<NodeId, Status>,
                             capacity: nat, hashed: Word)
    requires maxNodes <= 0xFFFF && 1 <= a < maxNodes && 1 <= b < maxNodes && maxNodes <= capacity
    requires forall n: NodeId :: 1 <= n < maxNodes ==>
               (n == a || Forwardable(viewA, n) <==> n == b || Forwardable(viewB, n))
    ensures HomeNode(hashed, Snapshot(a, maxNodes, Some(viewA), capacity))
         == HomeNode(hashed, Snapshot(b, maxNodes, Some(viewB), capacity))
    ensures HomeNode(hashed, Snapshot(a, maxNodes, Some(viewA), capacity)).Some?
  {
    hide Score;
    SnapshotMembers(a, maxNodes, viewA, capacity);
    SnapshotMembers(b, maxNodes, viewB, capacity);
    SameCandidatesSameHome(hashed, Snapshot(a, maxNodes, Some(viewA), capacity),
                           Snapshot(b, maxNodes, Some(viewB), capacity));
  }
}
