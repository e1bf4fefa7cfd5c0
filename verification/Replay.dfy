/** The sliding replay window of one sender session. */
module ReplayWindow {
  import opened Words
  import opened BigEndian

  const WINDOW_BITS: nat := 64

  /** A sender is a source node together with the random session of its process. */
  datatype Sender = Sender(source: U16, session: Word)

  datatype Window = Window(sender: Sender, highest: Word, seen: Word)

  /** Where a sequence number is judged: the window after it, and whether it is accepted. */
  function Judge(w: Window, sequence: Word): (Window, bool) {
    if sequence > w.highest then
      var advance := sequence - w.highest;
      (w.(highest := sequence, seen := if advance >= WINDOW_BITS then 1 else OrOne(ShiftLeft(w.seen, advance))), true)
    else
      var age := w.highest - sequence;
      if age >= WINDOW_BITS || Bit(w.seen, age) then (w, false)
      else (w.(seen := Mark(w.seen, age)), true)
  }

  function OrOne(x: Word): Word {
    WordIsPow2();
    SetBitFits(x, 0, 64);
    SetBit(x, 0)
  }

  function Mark(x: Word, age: nat): Word
    requires age < WINDOW_BITS
  {
    WordIsPow2();
    SetBitFits(x, age, 64);
    SetBit(x, age)
  }

  /** The window stands for a set of accepted sequence numbers: `highest` is its maximum, and bit
      `i` of `seen` says whether `highest - i` is in it. */
  ghost predicate StandsFor(w: Window, accepted: set<Word>) {
    && w.highest in accepted && (forall s :: s in accepted ==> s <= w.highest)
    && forall i :: 0 <= i < WINDOW_BITS ==> (Bit(w.seen, i) <==> 0 <= w.highest - i && w.highest - i in accepted)
  }

  /** A sequence is fresh for a history: never accepted, and above the highest accepted minus 64. */
  ghost predicate FreshFor(sequence: Word, accepted: set<Word>) {
    sequence !in accepted && forall s :: s in accepted ==> sequence + WINDOW_BITS > s
  }

  lemma {:induction false} OneBit(i: nat)
    ensures Bit(1, i) <==> i == 0
  {
    if i > 0 {
      assert 1 / 2 == 0;
      NoBit(i - 1);
    }
  }

  lemma {:induction false} NoBit(i: nat)
    ensures !Bit(0, i)
  {
    if i > 0 {
      NoBit(i - 1);
    }
  }

  lemma OpensStandingForFirst(sender: Sender, sequence: Word)
    ensures StandsFor(Window(sender, sequence, 1), {sequence})
  {
    forall i | 0 <= i < WINDOW_BITS ensures Bit(1, i) <==> i == 0 {
      OneBit(i);
    }
  }

  /** The window accepts exactly the fresh sequence numbers and goes on standing for the history. */
  lemma JudgeIsExact(w: Window, accepted: set<Word>, sequence: Word)
    requires StandsFor(w, accepted)
    ensures Judge(w, sequence).1 <==> FreshFor(sequence, accepted)
    ensures StandsFor(Judge(w, sequence).0, if Judge(w, sequence).1 then accepted + {sequence} else accepted)
    ensures Judge(w, sequence).0.sender == w.sender
  {
    if sequence > w.highest {
      AdvanceStandsFor(w, accepted, sequence);
    } else {
      FillStandsFor(w, accepted, sequence);
    }
  }

  lemma AdvanceStandsFor(w: Window, accepted: set<Word>, sequence: Word)
    requires StandsFor(w, accepted) && sequence > w.highest
    ensures StandsFor(Judge(w, sequence).0, accepted + {sequence}) && FreshFor(sequence, accepted)
  {
    var v := Judge(w, sequence).0;
    var advance := sequence - w.highest;
    forall i | 0 <= i < WINDOW_BITS
      ensures Bit(v.seen, i) <==> 0 <= v.highest - i && v.highest - i in accepted + {sequence}
    {
      if advance >= WINDOW_BITS {
        OneBit(i);
      } else {
        SetBitBits(ShiftLeft(w.seen, advance), 0, i);
        ShiftLeftBits(w.seen, advance, i);
        if i >= advance {
          assert Bit(w.seen, i - advance) <==> 0 <= w.highest - (i - advance) && w.highest - (i - advance) in accepted;
        }
      }
    }
  }

  lemma FillStandsFor(w: Window, accepted: set<Word>, sequence: Word)
    requires StandsFor(w, accepted) && sequence <= w.highest
    ensures Judge(w, sequence).1 <==> FreshFor(sequence, accepted)
    ensures StandsFor(Judge(w, sequence).0, if Judge(w, sequence).1 then accepted + {sequence} else accepted)
  {
    var v := Judge(w, sequence).0;
    var age := w.highest - sequence;
    if age < WINDOW_BITS {
      assert Bit(w.seen, age) <==> w.highest - age in accepted;
      if !Bit(w.seen, age) {
        forall i | 0 <= i < WINDOW_BITS
          ensures Bit(v.seen, i) <==> 0 <= v.highest - i && v.highest - i in accepted + {sequence}
        {
          SetBitBits(w.seen, age, i);
        }
      }
    }
  }
}

/** The receiver's table of windows: 128 slots, filled and reused round-robin. */
module ReplayCache {
  import opened Options
  import opened Words
  import opened BigEndian
  import opened ForwardCodec
  import opened ReplayWindow

  const CACHE_CAPACITY: nat := 128

  datatype Replay = Replay(cache: seq<Option<Window>>, next: nat)

  datatype Verdict = Accepted | Misrouted | Replayed

  function SenderOf(d: Decoded): Sender {
    Sender(d.sourceNode, d.session)
  }

  /** The first slot from `i` on that holds a window of `sender`. */
  function Find(cache: seq<Option<Window>>, sender: Sender, i: nat): (r: Option<nat>)
    requires i <= |cache|
    ensures r.Some? ==> i <= r.value < |cache| && cache[r.value].Some? && cache[r.value].value.sender == sender
    ensures r.None? ==> forall j :: i <= j < |cache| && cache[j].Some? ==> cache[j].value.sender != sender
    decreases |cache| - i
  {
    if i == |cache| then None
    else if cache[i].Some? && cache[i].value.sender == sender then Some(i)
    else Find(cache, sender, i + 1)
  }

  predicate WellFormed(r: Replay) {
    |r.cache| == CACHE_CAPACITY && r.next < CACHE_CAPACITY
  }

  /** One packet: routed elsewhere, judged by its sender's window, or opening a window. */
  function Accept(r: Replay, nodeId: U16, d: Decoded): (Replay, Verdict)
    requires WellFormed(r)
    ensures WellFormed(Accept(r, nodeId, d).0)
  {
    if d.targetNode != nodeId then (r, Misrouted)
    else
      match Find(r.cache, SenderOf(d), 0)
      case Some(j) =>
        var (w, ok) := Judge(r.cache[j].value, d.sequence);
        (r.(cache := r.cache[j := Some(w)]), if ok then Accepted else Replayed)
      case None =>
        (Replay(r.cache[r.next := Some(Window(SenderOf(d), d.sequence, 1))], (r.next + 1) % CACHE_CAPACITY), Accepted)
  }

  function Start(): (r: Replay)
    ensures WellFormed(r)
  {
    Replay(seq(CACHE_CAPACITY, _ => None), 0)
  }

  /** The table after a run of packets. */
  function After(nodeId: U16, packets: seq<Decoded>): (r: Replay)
    ensures WellFormed(r)
  {
    if packets == [] then Start()
    else Accept(After(nodeId, packets[..|packets| - 1]), nodeId, packets[|packets| - 1]).0
  }

  /** What was accepted during a run, by sender. */
  function Log(nodeId: U16, packets: seq<Decoded>): map<Sender, set<Word>> {
    if packets == [] then map[] else
      var before := packets[..|packets| - 1];
      var d := packets[|packets| - 1];
      if Accept(After(nodeId, before), nodeId, d).1 == Accepted then Record(Log(nodeId, before), d)
      else Log(nodeId, before)
  }

  function Record(log: map<Sender, set<Word>>, d: Decoded): map<Sender, set<Word>> {
    log[SenderOf(d) := (if SenderOf(d) in log then log[SenderOf(d)] else {}) + {d.sequence}]
  }

  /** The rule the table is there to implement. */
  ghost predicate Fresh(log: map<Sender, set<Word>>, d: Decoded) {
    SenderOf(d) in log ==> FreshFor(d.sequence, log[SenderOf(d)])
  }

  // ---- with any number of senders: exact as far as the cache remembers ----

  /** `since[j]` is what slot `j`'s sender had accepted since its window was opened. */
  ghost predicate Remembers(r: Replay, since: seq<set<Word>>) {
    && WellFormed(r) && |since| == CACHE_CAPACITY
    && (forall j :: 0 <= j < CACHE_CAPACITY && r.cache[j].Some? ==> StandsFor(r.cache[j].value, since[j]))
    && (forall j, k :: 0 <= j < k < CACHE_CAPACITY && r.cache[j].Some? && r.cache[k].Some? ==>
          r.cache[j].value.sender != r.cache[k].value.sender)
  }

  /** A packet for this node is accepted exactly when its sender has no window, or its sequence is
      fresh for everything accepted since that window was opened; and then it counts as accepted since. */
  lemma AcceptIsExact(r: Replay, since: seq<set<Word>>, nodeId: U16, d: Decoded) returns (since': seq<set<Word>>)
    requires Remembers(r, since)
    ensures Remembers(Accept(r, nodeId, d).0, since')
    ensures Accept(r, nodeId, d).1 == Misrouted <==> d.targetNode != nodeId
    ensures d.targetNode == nodeId ==>
              (Accept(r, nodeId, d).1 == Accepted <==>
                 forall j :: 0 <= j < CACHE_CAPACITY && r.cache[j].Some? && r.cache[j].value.sender == SenderOf(d) ==>
                   FreshFor(d.sequence, since[j]))
    ensures since' == if Accept(r, nodeId, d).1 != Accepted then since
                      else match Find(r.cache, SenderOf(d), 0)
                           case Some(j) => since[j := since[j] + {d.sequence}]
                           case None => since[r.next := {d.sequence}]
  {
    since' := since;
    if d.targetNode == nodeId {
      match Find(r.cache, SenderOf(d), 0)
      case Some(j) =>
        JudgeIsExact(r.cache[j].value, since[j], d.sequence);
        if Judge(r.cache[j].value, d.sequence).1 {
          since' := since[j := since[j] + {d.sequence}];
        }
      case None =>
        OpensStandingForFirst(SenderOf(d), d.sequence);
        since' := since[r.next := {d.sequence}];
    }
  }

  // ---- with any number of senders, over whole runs ----

  /** A window that was opened for `sender`, and what was accepted through it since. */
  datatype Opening = Opening(sender: Sender, since: set<Word>)

  /** The newest of the last `room` windows opened that is `sender`'s. */
  function Recent(ws: seq<Opening>, sender: Sender, room: nat): (r: Option<nat>)
    ensures r.Some? ==> r.value < |ws| <= r.value + room && ws[r.value].sender == sender
    ensures r.None? ==> forall i :: 0 <= i < |ws| <= i + room ==> ws[i].sender != sender
    decreases |ws|
  {
    if ws == [] || room == 0 then None
    else if ws[|ws| - 1].sender == sender then Some(|ws| - 1)
    else Recent(ws[..|ws| - 1], sender, room - 1)
  }

  /** The rule without the table: a sender is known by its window among the last 128 opened. */
  ghost function Admit(ws: seq<Opening>, nodeId: U16, d: Decoded): (seq<Opening>, Verdict) {
    if d.targetNode != nodeId then (ws, Misrouted)
    else match Recent(ws, SenderOf(d), CACHE_CAPACITY)
      case None => (ws + [Opening(SenderOf(d), {d.sequence})], Accepted)
      case Some(i) =>
        if FreshFor(d.sequence, ws[i].since) then (ws[i := Opening(SenderOf(d), ws[i].since + {d.sequence})], Accepted)
        else (ws, Replayed)
  }

  /** All windows opened during a run, in order. */
  ghost function Openings(nodeId: U16, packets: seq<Decoded>): seq<Opening> {
    if packets == [] then []
    else Admit(Openings(nodeId, packets[..|packets| - 1]), nodeId, packets[|packets| - 1]).0
  }

  /** Of the first `n` windows, the last that went into slot `j`. */
  function Latest(n: nat, j: nat): (i: int)
    requires j < n && j < CACHE_CAPACITY
    ensures 0 <= i < n <= i + CACHE_CAPACITY && i % CACHE_CAPACITY == j
  {
    n - 1 - (n - 1 - j) % CACHE_CAPACITY
  }

  lemma LatestIsUnique(n: nat, i: nat)
    requires i < n <= i + CACHE_CAPACITY
    ensures i % CACHE_CAPACITY < n && Latest(n, i % CACHE_CAPACITY) == i
  {
  }

  lemma LatestAfterOneMore(n: nat, j: nat)
    requires j < CACHE_CAPACITY && j <= n
    ensures j == n % CACHE_CAPACITY ==> Latest(n + 1, j) == n
    ensures j != n % CACHE_CAPACITY ==> j < n && Latest(n + 1, j) == Latest(n, j)
  {
  }

  /** The table holds the last 128 windows, each in its slot. */
  ghost predicate Mirrors(r: Replay, ws: seq<Opening>) {
    && WellFormed(r) && r.next == |ws| % CACHE_CAPACITY
    && (forall j :: 0 <= j < CACHE_CAPACITY ==> SlotMirrors(r.cache[j], ws, j))
    && forall i, k :: 0 <= i < k < |ws| <= i + CACHE_CAPACITY ==> ws[i].sender != ws[k].sender
  }

  ghost predicate SlotMirrors(slot: Option<Window>, ws: seq<Opening>, j: nat)
    requires j < CACHE_CAPACITY
  {
    if j < |ws| then
      && slot.Some? && slot.value.sender == ws[Latest(|ws|, j)].sender && StandsFor(slot.value, ws[Latest(|ws|, j)].since)
    else slot.None?
  }

  lemma FindIsRecent(r: Replay, ws: seq<Opening>, sender: Sender)
    requires Mirrors(r, ws)
    ensures match Find(r.cache, sender, 0)
            case Some(j) =>
              && j < |ws| && Recent(ws, sender, CACHE_CAPACITY) == Some(Latest(|ws|, j))
              && r.cache[j].Some? && StandsFor(r.cache[j].value, ws[Latest(|ws|, j)].since)
            case None => Recent(ws, sender, CACHE_CAPACITY).None?
  {
    hide StandsFor;
    var found := Find(r.cache, sender, 0);
    var recent := Recent(ws, sender, CACHE_CAPACITY);
    if found.Some? {
      assert SlotMirrors(r.cache[found.value], ws, found.value);
    }
    if recent.Some? {
      LatestIsUnique(|ws|, recent.value);
      assert SlotMirrors(r.cache[recent.value % CACHE_CAPACITY], ws, recent.value % CACHE_CAPACITY);
    }
    hide Find, Recent, SlotMirrors;
  }

  /** A known sender's window moves on. */
  lemma MirrorsKnown(r: Replay, ws: seq<Opening>, j: nat, w: Window, since: set<Word>)
    requires Mirrors(r, ws) && j < CACHE_CAPACITY && j < |ws| && w.sender == ws[Latest(|ws|, j)].sender && StandsFor(w, since)
    ensures var i := Latest(|ws|, j);
            Mirrors(r.(cache := r.cache[j := Some(w)]), ws[i := Opening(w.sender, since)])
  {
    hide StandsFor;
    var i := Latest(|ws|, j);
    var (r', ws') := (r.(cache := r.cache[j := Some(w)]), ws[i := Opening(w.sender, since)]);
    forall k | 0 <= k < CACHE_CAPACITY ensures SlotMirrors(r'.cache[k], ws', k) {
      assert SlotMirrors(r.cache[k], ws, k);
    }
    forall a, b | 0 <= a < b < |ws'| <= a + CACHE_CAPACITY ensures ws'[a].sender != ws'[b].sender {
      assert ws[a].sender != ws[b].sender;
    }
  }

  lemma SlotAfterNew(r: Replay, ws: seq<Opening>, w: Window, since: set<Word>, k: nat)
    requires WellFormed(r) && r.next == |ws| % CACHE_CAPACITY && StandsFor(w, since) && k < CACHE_CAPACITY && SlotMirrors(r.cache[k], ws, k)
    ensures SlotMirrors(r.cache[r.next := Some(w)][k], ws + [Opening(w.sender, since)], k)
  {
    hide StandsFor;
    if k <= |ws| {
      LatestAfterOneMore(|ws|, k);
    }
    hide Latest;
  }

  lemma StillDistinct(ws: seq<Opening>, o: Opening)
    requires forall i, k :: 0 <= i < k < |ws| <= i + CACHE_CAPACITY ==> ws[i].sender != ws[k].sender
    requires forall i :: 0 <= i < |ws| <= i + CACHE_CAPACITY ==> ws[i].sender != o.sender
    ensures var ws' := ws + [o]; forall i, k :: 0 <= i < k < |ws'| <= i + CACHE_CAPACITY ==> ws'[i].sender != ws'[k].sender
  {
  }

  lemma NextSlot(n: nat)
    ensures (n % CACHE_CAPACITY + 1) % CACHE_CAPACITY == (n + 1) % CACHE_CAPACITY
  {
  }

  /** A new sender's window takes the oldest one's slot. */
  lemma MirrorsNew(r: Replay, ws: seq<Opening>, w: Window, since: set<Word>)
    requires Mirrors(r, ws) && StandsFor(w, since) && Recent(ws, w.sender, CACHE_CAPACITY).None?
    ensures Mirrors(Replay(r.cache[r.next := Some(w)], (r.next + 1) % CACHE_CAPACITY), ws + [Opening(w.sender, since)])
  {
    hide StandsFor, Recent, SlotMirrors;
    var (r', ws') := (Replay(r.cache[r.next := Some(w)], (r.next + 1) % CACHE_CAPACITY), ws + [Opening(w.sender, since)]);
    forall k | 0 <= k < CACHE_CAPACITY ensures SlotMirrors(r'.cache[k], ws', k) {
      SlotAfterNew(r, ws, w, since, k);
    }
    StillDistinct(ws, Opening(w.sender, since));
    NextSlot(|ws|);
  }

  lemma AcceptIsAdmit(r: Replay, ws: seq<Opening>, nodeId: U16, d: Decoded)
    requires Mirrors(r, ws)
    ensures Accept(r, nodeId, d).1 == Admit(ws, nodeId, d).1
    ensures Mirrors(Accept(r, nodeId, d).0, Admit(ws, nodeId, d).0)
  {
    hide Mirrors, StandsFor, FreshFor, Judge;
    if d.targetNode == nodeId {
      FindIsRecent(r, ws, SenderOf(d));
      match Find(r.cache, SenderOf(d), 0)
      case Some(j) =>
        var i := Latest(|ws|, j);
        var (w, ok) := Judge(r.cache[j].value, d.sequence);
        JudgeIsExact(r.cache[j].value, ws[i].since, d.sequence);
        MirrorsKnown(r, ws, j, w, if ok then ws[i].since + {d.sequence} else ws[i].since);
        if !ok {
          assert ws[i := Opening(w.sender, ws[i].since)] == ws;
        }
      case None =>
        OpensStandingForFirst(SenderOf(d), d.sequence);
        MirrorsNew(r, ws, Window(SenderOf(d), d.sequence, 1), {d.sequence});
    }
  }

  lemma {:induction false} RunMirrors(nodeId: U16, packets: seq<Decoded>)
    ensures Mirrors(After(nodeId, packets), Openings(nodeId, packets))
  {
    if packets != [] {
      RunMirrors(nodeId, packets[..|packets| - 1]);
      AcceptIsAdmit(After(nodeId, packets[..|packets| - 1]), Openings(nodeId, packets[..|packets| - 1]), nodeId,
                    packets[|packets| - 1]);
      hide Mirrors, Accept, Admit;
    }
  }

  /** Over every run, with any number of senders: a packet is accepted exactly when it is addressed to
      this node and, if its sender has one of the last 128 windows opened, it is fresh for what was
      accepted since that window was opened. */
  lemma ReplayProtectionRemembers128(nodeId: U16, packets: seq<Decoded>, d: Decoded)
    ensures var (verdict, ws) := (Accept(After(nodeId, packets), nodeId, d).1, Openings(nodeId, packets));
            && (verdict == Misrouted <==> d.targetNode != nodeId)
            && (verdict == Accepted <==>
                  && d.targetNode == nodeId
                  && forall i :: 0 <= i < |ws| <= i + CACHE_CAPACITY && ws[i].sender == SenderOf(d) ==> FreshFor(d.sequence, ws[i].since))
  {
    RunMirrors(nodeId, packets);
    AcceptIsAdmit(After(nodeId, packets), Openings(nodeId, packets), nodeId, d);
    hide Accept, FreshFor, After, Openings;
  }

  // ---- with at most 128 senders: exact over the whole run ----

  /** Slot `at[s]` holds the window of sender `s` and stands for all it ever sent; slots are filled
      in order and none was reused. */
  ghost predicate Complete(r: Replay, log: map<Sender, set<Word>>, at: map<Sender, nat>) {
    && WellFormed(r) && |log| <= CACHE_CAPACITY && r.next == |log| % CACHE_CAPACITY && at.Keys == log.Keys
    && (forall s :: s in log ==> at[s] < |log| && Holds(r, log, s, at[s]))
    && FilledUpTo(r.cache, log.Keys, at)
  }

  /** The first slots belong to the logged senders, the rest is empty. */
  ghost predicate FilledUpTo(cache: seq<Option<Window>>, senders: set<Sender>, at: map<Sender, nat>)
    requires |cache| == CACHE_CAPACITY && at.Keys == senders
  {
    forall j :: 0 <= j < CACHE_CAPACITY ==>
      if j < |senders| then cache[j].Some? && cache[j].value.sender in senders && at[cache[j].value.sender] == j
      else cache[j].None?
  }

  ghost predicate Holds(r: Replay, log: map<Sender, set<Word>>, s: Sender, j: nat)
    requires WellFormed(r) && s in log
  {
    j < CACHE_CAPACITY && r.cache[j].Some? && r.cache[j].value.sender == s && StandsFor(r.cache[j].value, log[s])
  }

  lemma FindsWhatIsLogged(r: Replay, log: map<Sender, set<Word>>, at: map<Sender, nat>, sender: Sender)
    requires Complete(r, log, at)
    ensures match Find(r.cache, sender, 0)
            case Some(j) => sender in log && at[sender] == j && j < |log|
            case None => sender !in log
  {
    hide StandsFor;
    assert sender in log ==> Holds(r, log, sender, at[sender]);
  }

  lemma KnownSender(r: Replay, log: map<Sender, set<Word>>, at: map<Sender, nat>, sender: Sender, w: Window, s: set<Word>)
    requires Complete(r, log, at) && sender in log && at[sender] < |log| && w.sender == sender && StandsFor(w, s)
    ensures Complete(r.(cache := r.cache[at[sender] := Some(w)]), log[sender := s], at)
  {
    hide StandsFor;
    var log' := log[sender := s];
    var r' := r.(cache := r.cache[at[sender] := Some(w)]);
    assert log'.Keys == log.Keys;
    forall x | x in log' ensures at[x] < |log'| && Holds(r', log', x, at[x]) {
      assert Holds(r, log, x, at[x]);
    }
  }

  lemma NewSender(r: Replay, log: map<Sender, set<Word>>, at: map<Sender, nat>, sender: Sender, w: Window, s: set<Word>)
    requires Complete(r, log, at) && sender !in log && |log| < CACHE_CAPACITY && w.sender == sender && StandsFor(w, s)
    ensures Complete(Replay(r.cache[r.next := Some(w)], (r.next + 1) % CACHE_CAPACITY), log[sender := s], at[sender := |log|])
  {
    hide Complete, Holds, FilledUpTo, StandsFor;
    NextIsFree(r, log, at);
    var log' := log[sender := s];
    var at' := at[sender := |log|];
    var r' := Replay(r.cache[|log| := Some(w)], (|log| + 1) % CACHE_CAPACITY);
    assert log'.Keys == log.Keys + {sender};
    assert |log'| == |log| + 1;
    SlotsStayInOrder(r.cache, log.Keys, at, sender, w);
    forall x | x in log' ensures at'[x] < |log'| && Holds(r', log', x, at'[x]) {
      HeldAfterNew(r, log, at, sender, w, s, x);
    }
    AllParts(r', log', at');
  }

  lemma NextIsFree(r: Replay, log: map<Sender, set<Word>>, at: map<Sender, nat>)
    requires Complete(r, log, at) && |log| < CACHE_CAPACITY
    ensures WellFormed(r) && |r.cache| == CACHE_CAPACITY == 128 && r.next == |log| && at.Keys == log.Keys && FilledUpTo(r.cache, log.Keys, at)
  {
    hide Holds, FilledUpTo;
  }

  lemma AllParts(r: Replay, log: map<Sender, set<Word>>, at: map<Sender, nat>)
    requires |r.cache| == CACHE_CAPACITY && |log| <= CACHE_CAPACITY && r.next == |log| % CACHE_CAPACITY && at.Keys == log.Keys
    requires forall s :: s in log ==> at[s] < |log| && Holds(r, log, s, at[s])
    requires FilledUpTo(r.cache, log.Keys, at)
    ensures Complete(r, log, at)
  {
    hide Holds, FilledUpTo;
  }

  lemma HeldAfterNew(r: Replay, log: map<Sender, set<Word>>, at: map<Sender, nat>, sender: Sender, w: Window,
                     s: set<Word>, x: Sender)
    requires Complete(r, log, at) && sender !in log && |log| < CACHE_CAPACITY && w.sender == sender && StandsFor(w, s)
    requires x == sender || x in log
    ensures var at' := at[sender := |log|];
            && at'[x] <= |log|
            && Holds(Replay(r.cache[|log| := Some(w)], (|log| + 1) % CACHE_CAPACITY), log[sender := s], x, at'[x])
  {
    hide StandsFor;
    assert x in log ==> Holds(r, log, x, at[x]);
  }

  lemma SlotsStayInOrder(cache: seq<Option<Window>>, senders: set<Sender>, at: map<Sender, nat>, sender: Sender, w: Window)
    requires |cache| == CACHE_CAPACITY && at.Keys == senders && FilledUpTo(cache, senders, at)
    requires sender !in senders && |senders| < CACHE_CAPACITY && w.sender == sender
    ensures at[sender := |senders|].Keys == senders + {sender}
    ensures FilledUpTo(cache[|senders| := Some(w)], senders + {sender}, at[sender := |senders|])
  {
  }

  lemma KnownStep(r: Replay, log: map<Sender, set<Word>>, at: map<Sender, nat>, nodeId: U16, d: Decoded)
    requires Complete(r, log, at) && d.targetNode == nodeId && SenderOf(d) in log
    ensures Accept(r, nodeId, d).1 == if Fresh(log, d) then Accepted else Replayed
    ensures Complete(Accept(r, nodeId, d).0, if Fresh(log, d) then Record(log, d) else log, at)
  {
    hide Complete, StandsFor, Judge, FreshFor, Find;
    var sender := SenderOf(d);
    FindsWhatIsLogged(r, log, at, sender);
    WindowOfLogged(r, log, at, sender);
    var (w, ok) := Judge(r.cache[at[sender]].value, d.sequence);
    JudgeIsExact(r.cache[at[sender]].value, log[sender], d.sequence);
    var s := if ok then log[sender] + {d.sequence} else log[sender];
    KnownSender(r, log, at, sender, w, s);
    assert log[sender := s] == if Fresh(log, d) then Record(log, d) else log;
  }

  lemma WindowOfLogged(r: Replay, log: map<Sender, set<Word>>, at: map<Sender, nat>, sender: Sender)
    requires Complete(r, log, at) && sender in log
    ensures at.Keys == log.Keys && at[sender] < |log| <= |r.cache| == CACHE_CAPACITY && r.cache[at[sender]].Some?
    ensures r.cache[at[sender]].value.sender == sender && StandsFor(r.cache[at[sender]].value, log[sender])
  {
    hide StandsFor, FilledUpTo;
    assert Holds(r, log, sender, at[sender]);
  }

  lemma NewStep(r: Replay, log: map<Sender, set<Word>>, at: map<Sender, nat>, nodeId: U16, d: Decoded)
    requires Complete(r, log, at) && d.targetNode == nodeId && SenderOf(d) !in log
    ensures Accept(r, nodeId, d).1 == Accepted && |Record(log, d)| == |log| + 1
    ensures |log| < CACHE_CAPACITY ==> Complete(Accept(r, nodeId, d).0, Record(log, d), at[SenderOf(d) := |log|])
  {
    hide StandsFor, Fresh, FilledUpTo, Holds, Accept, Judge;
    var sender := SenderOf(d);
    FindsWhatIsLogged(r, log, at, sender);
    NewIs(r, nodeId, d);
    OpensStandingForFirst(sender, d.sequence);
    assert Record(log, d).Keys == log.Keys + {sender};
    assert Record(log, d) == log[sender := {d.sequence}];
    if |log| < CACHE_CAPACITY {
      NewSender(r, log, at, sender, Window(sender, d.sequence, 1), {d.sequence});
    }
  }

  lemma NewIs(r: Replay, nodeId: U16, d: Decoded)
    requires WellFormed(r) && d.targetNode == nodeId && Find(r.cache, SenderOf(d), 0).None?
    ensures Accept(r, nodeId, d)
         == (Replay(r.cache[r.next := Some(Window(SenderOf(d), d.sequence, 1))], (r.next + 1) % CACHE_CAPACITY), Accepted)
  {
  }

  lemma CompleteStep(r: Replay, log: map<Sender, set<Word>>, at: map<Sender, nat>, nodeId: U16, d: Decoded)
    returns (at': map<Sender, nat>)
    requires Complete(r, log, at)
    ensures Accept(r, nodeId, d).1 == Accepted <==> d.targetNode == nodeId && Fresh(log, d)
    ensures var log' := if Accept(r, nodeId, d).1 == Accepted then Record(log, d) else log;
            |log'| <= CACHE_CAPACITY ==> Complete(Accept(r, nodeId, d).0, log', at')
  {
    at' := at;
    if d.targetNode == nodeId {
      if SenderOf(d) in log {
        KnownStep(r, log, at, nodeId, d);
        hide *;
      } else {
        NewStep(r, log, at, nodeId, d);
        assert Fresh(log, d);
        at' := at[SenderOf(d) := |log|];
        hide *;
      }
    }
  }

  /** The log only grows, so a bound on the end of a run bounds every prefix. */
  lemma LogGrows(nodeId: U16, packets: seq<Decoded>)
    requires packets != []
    ensures |Log(nodeId, packets[..|packets| - 1])| <= |Log(nodeId, packets)|
  {
    var before := Log(nodeId, packets[..|packets| - 1]);
    var d := packets[|packets| - 1];
    assert Record(before, d).Keys == before.Keys + {SenderOf(d)};
  }

  lemma {:induction false} RunIsComplete(nodeId: U16, packets: seq<Decoded>) returns (at: map<Sender, nat>)
    requires |Log(nodeId, packets)| <= CACHE_CAPACITY
    ensures Complete(After(nodeId, packets), Log(nodeId, packets), at)
  {
    if packets == [] {
      at := map[];
    } else {
      LogGrows(nodeId, packets);
      var before := packets[..|packets| - 1];
      at := RunIsComplete(nodeId, before);
      at := CompleteStep(After(nodeId, before), Log(nodeId, before), at, nodeId, packets[|packets| - 1]);
    }
  }

  /** Over any run with at most 128 senders, a packet is accepted exactly when it is addressed to
      this node, was never accepted before, and is above its sender's highest minus 64. */
  lemma ReplayProtectionIsExact(nodeId: U16, packets: seq<Decoded>, d: Decoded)
    requires |Log(nodeId, packets)| <= CACHE_CAPACITY
    ensures Accept(After(nodeId, packets), nodeId, d).1 ==
              if d.targetNode != nodeId then Misrouted
              else if Fresh(Log(nodeId, packets), d) then Accepted else Replayed
  {
    var at := RunIsComplete(nodeId, packets);
    var _ := CompleteStep(After(nodeId, packets), Log(nodeId, packets), at, nodeId, d);
  }

  // ---- the bound is needed ----

  /** One packet from each of `n` different sessions of node 1. */
  function OnePerSession(n: nat, nodeId: U16): seq<Decoded>
    requires n < WORD
  {
    seq(n, i requires 0 <= i < n => Probe(i, nodeId))
  }

  function Probe(i: nat, nodeId: U16): Decoded
    requires i < WORD
  {
    Decoded(Request, 1, 0, nodeId, 0, i, 1, Ip4([0, 0, 0, 0], 0), [])
  }

  /** A table whose first `n` slots were opened by those packets. */
  function Filled(n: nat): (t: seq<Option<Window>>)
    requires n <= CACHE_CAPACITY
    ensures |t| == CACHE_CAPACITY
  {
    seq(CACHE_CAPACITY, j => if 0 <= j < n then Some(Window(Sender(1, j), 1, 1)) else None)
  }

  lemma FillsNext(n: nat, nodeId: U16)
    requires n < CACHE_CAPACITY
    ensures Accept(Replay(Filled(n), n), nodeId, Probe(n, nodeId)).0 == Replay(Filled(n + 1), (n + 1) % CACHE_CAPACITY)
  {
    hide Judge;
    assert Find(Filled(n), Sender(1, n), 0).None?;
    assert Filled(n)[n := Some(Window(Sender(1, n), 1, 1))] == Filled(n + 1);
    hide Find, Filled;
  }

  lemma {:induction false} FilledInOrder(n: nat, nodeId: U16)
    requires n <= CACHE_CAPACITY
    ensures After(nodeId, OnePerSession(n, nodeId)) == Replay(Filled(n), n % CACHE_CAPACITY)
  {
    hide Accept, Filled, Probe;
    if n == 0 {
      NothingFilled();
    } else {
      FilledInOrder(n - 1, nodeId);
      var packets := OnePerSession(n, nodeId);
      assert packets[..n - 1] == OnePerSession(n - 1, nodeId);
      FillsNext(n - 1, nodeId);
    }
  }

  lemma NothingFilled()
    ensures Start() == Replay(Filled(0), 0)
  {
  }

  /** With 129 senders the first window has been reused, and the very first packet is accepted
      a second time. */
  lemma EvictionForgets(nodeId: U16)
    ensures var run := OnePerSession(CACHE_CAPACITY + 1, nodeId);
            && Accept(Start(), nodeId, run[0]).1 == Accepted
            && Accept(After(nodeId, run), nodeId, run[0]).1 == Accepted
  {
    var n := CACHE_CAPACITY;
    var run := OnePerSession(n + 1, nodeId);
    FilledInOrder(n, nodeId);
    assert run[..n] == OnePerSession(n, nodeId);
    var full := After(nodeId, run[..n]);
    assert Find(full.cache, Sender(1, n), 0).None?;
    var r := After(nodeId, run);
    assert r.cache == full.cache[0 := Some(Window(Sender(1, n), 1, 1))];
    assert Find(r.cache, Sender(1, 0), 0).None?;
    assert Find(Start().cache, Sender(1, 0), 0).None?;
  }
}
