/** Server connection ids: magic, version, node, worker and six bytes of entropy. */
module ConnectionIds {
  import opened Options
  import opened BigEndian

  const CID_LENGTH: nat := 12
  const CID_VERSION: Byte := 1
  const MAGIC_0: Byte := 0x4C
  const MAGIC_1: Byte := 0x59
  const PLACEMENT_HINT_SIZE: nat := 6

  datatype Fields = Fields(node: U16, worker: Byte)

  function EncodeCid(node: U16, worker: Byte, entropy: seq<Byte>): (cid: seq<Byte>)
    requires |entropy| == 6
    ensures |cid| == CID_LENGTH
  {
    [MAGIC_0, MAGIC_1, CID_VERSION, node / 256, node % 256, worker] + entropy
  }

  /** The locating prefix handed to clients. */
  function PlacementHint(node: U16, worker: Byte): seq<Byte> {
    EncodeCid(node, worker, [0, 0, 0, 0, 0, 0])[..PLACEMENT_HINT_SIZE]
  }

  function ParseCid(cid: seq<Byte>): Option<Fields> {
    if |cid| != CID_LENGTH then None
    else if cid[0] != MAGIC_0 || cid[1] != MAGIC_1 || cid[2] != CID_VERSION then None
    else
      var node: U16 := (cid[3] as int) * 256 + cid[4] as int;
      if node == 0 then None else Some(Fields(node, cid[5]))
  }

  /** Parsing inverts encoding for every assignable node; node 0 is reserved and never parses. */
  lemma ParseOfEncode(node: U16, worker: Byte, entropy: seq<Byte>)
    requires |entropy| == 6
    ensures ParseCid(EncodeCid(node, worker, entropy)) == if node == 0 then None else Some(Fields(node, worker))
  {
  }

  /** Whatever parses is the encoding of its fields with its own entropy. */
  lemma EncodeOfParse(cid: seq<Byte>)
    requires ParseCid(cid).Some?
    ensures var f := ParseCid(cid).value; cid == EncodeCid(f.node, f.worker, cid[6..])
  {
  }

  /** A hint determines the location: a CID that starts with it parses to that location whatever
      the client appends, and two locations never share a hint. */
  lemma HintLocates(node: U16, worker: Byte, node': U16, worker': Byte, tail: seq<Byte>)
    requires |tail| == 6
    ensures PlacementHint(node, worker) + tail == EncodeCid(node, worker, tail)
    ensures PlacementHint(node, worker) == PlacementHint(node', worker') <==> node == node' && worker == worker'
  {
    var h, h' := PlacementHint(node, worker), PlacementHint(node', worker');
    assert h == [MAGIC_0, MAGIC_1, CID_VERSION, node / 256, node % 256, worker];
    assert h' == [MAGIC_0, MAGIC_1, CID_VERSION, node' / 256, node' % 256, worker'];
    assert h == h' ==> h[3] == h'[3] && h[4] == h'[4] && h[5] == h'[5];
  }
}

/** The reuseport classifier twice: the reference function and the kernel program. */
module Classifier {
  import opened Options
  import opened Words
  import opened BigEndian
  import opened ConnectionIds

  type U32 = x: int | 0 <= x < 0x1_0000_0000

  const FALLBACK: U32 := 0xFFFF_FFFF

  /** The reference: read the worker out of the destination CID, or fall back. */
  function Classify(packet: seq<Byte>, socketCount: U32): U32 {
    if |packet| < 13 || socketCount == 0 then FALLBACK
    else if packet[0] >= 0x80 && (|packet| < 18 || packet[5] != 12) then FALLBACK
    else
      var offset := if packet[0] >= 0x80 then 6 else 1;
      if packet[offset] != MAGIC_0 || packet[offset + 1] != MAGIC_1 || packet[offset + 2] != CID_VERSION
         || packet[offset + 5] >= socketCount
      then FALLBACK
      else packet[offset + 5]
  }

  // ---- classic BPF ----

  datatype Insn =
    | LdLen                                    // BPF_LD | BPF_W | BPF_LEN
    | LdAbs(offset: nat)                       // BPF_LD | BPF_B | BPF_ABS
    | JmpGe(k: U32, jt: nat, jf: nat)          // BPF_JMP | BPF_JGE | BPF_K
    | JmpEq(k: U32, jt: nat, jf: nat)          // BPF_JMP | BPF_JEQ | BPF_K
    | JmpSet(k: U32, jt: nat, jf: nat)         // BPF_JMP | BPF_JSET | BPF_K
    | RetA                                     // BPF_RET | BPF_A
    | RetK(k: U32)                             // BPF_RET | BPF_K

  datatype Outcome = Returns(value: U32) | LoadOutOfRange | RunsOffTheEnd

  /** `a & k != 0`: some bit is set in both. */
  predicate TestBits(a: nat, k: nat)
    decreases k
  {
    k > 0 && ((a % 2 == 1 && k % 2 == 1) || TestBits(a / 2, k / 2))
  }

  /** The interpreter. Jumps are forward only, relative to the next instruction. */
  function Exec(program: seq<Insn>, packet: seq<Byte>, pc: nat, a: nat): Outcome
    decreases if pc < |program| then |program| - pc else 0
  {
    if pc >= |program| then RunsOffTheEnd else
      match program[pc]
      case LdLen => Exec(program, packet, pc + 1, |packet|)
      case LdAbs(k) => if k < |packet| then Exec(program, packet, pc + 1, packet[k]) else LoadOutOfRange
      case JmpGe(k, jt, jf) => Exec(program, packet, pc + 1 + if a >= k then jt else jf, a)
      case JmpEq(k, jt, jf) => Exec(program, packet, pc + 1 + if a == k then jt else jf, a)
      case JmpSet(k, jt, jf) => Exec(program, packet, pc + 1 + if TestBits(a, k) then jt else jf, a)
      case RetA => if a < 0x1_0000_0000 then Returns(a) else RunsOffTheEnd
      case RetK(k) => Returns(k)
  }

  /** The 27 instructions as attached, with the socket count patched in. */
  function Program(socketCount: U32): seq<Insn> {
    [
      LdLen,                          //  0
      JmpGe(13, 0, 24),               //  1
      LdAbs(0),                       //  2
      JmpSet(0x80, 9, 0),             //  3
      LdAbs(1),                       //  4
      JmpEq(0x4C, 0, 20),             //  5
      LdAbs(2),                       //  6
      JmpEq(0x59, 0, 18),             //  7
      LdAbs(3),                       //  8
      JmpEq(1, 0, 16),                //  9
      LdAbs(6),                       // 10
      JmpGe(socketCount, 14, 0),      // 11
      RetA,                           // 12
      LdLen,                          // 13
      JmpGe(18, 0, 11),               // 14
      LdAbs(5),                       // 15
      JmpEq(12, 0, 9),                // 16
      LdAbs(6),                       // 17
      JmpEq(0x4C, 0, 7),              // 18
      LdAbs(7),                       // 19
      JmpEq(0x59, 0, 5),              // 20
      LdAbs(8),                       // 21
      JmpEq(1, 0, 3),                 // 22
      LdAbs(11),                      // 23
      JmpGe(socketCount, 1, 0),       // 24
      RetA,                           // 25
      RetK(FALLBACK)                  // 26
    ]
  }

  lemma {:induction false} TestsOneBit(a: nat, i: nat)
    ensures TestBits(a, Pow2(i)) <==> Bit(a, i)
  {
    if i == 0 {
      assert !TestBits(a / 2, 0);
    } else {
      assert Pow2(i) / 2 == Pow2(i - 1) && Pow2(i) % 2 == 0;
      TestsOneBit(a / 2, i - 1);
    }
  }

  lemma TopBit(b: Byte)
    ensures TestBits(b, 0x80) <==> b >= 0x80
  {
    TestsOneBit(b, 7);
    BitIsQuotient(b, 7);
    assert Pow2(7) == 0x80 by { assert Pow2(4) == 16; }
    hide TestBits, Pow2, Bit;
  }

  /** The last instruction, where every rejected packet ends up. */
  lemma Rejects(packet: seq<Byte>, n: U32, a: nat)
    ensures Exec(Program(n), packet, 26, a) == Returns(FALLBACK)
  {
  }

  /** Instructions 4 to 12: the short-header branch. */
  lemma ShortBranch(packet: seq<Byte>, n: U32, a: nat)
    requires |packet| >= 13
    ensures Exec(Program(n), packet, 4, a) ==
              Returns(if packet[1] == MAGIC_0 && packet[2] == MAGIC_1 && packet[3] == CID_VERSION && packet[6] < n
                      then packet[6] else FALLBACK)
  {
    var p := Program(n);
    Rejects(packet, n, packet[1]);
    Rejects(packet, n, packet[2]);
    Rejects(packet, n, packet[3]);
    Rejects(packet, n, packet[6]);
    assert Exec(p, packet, 10, packet[3]) == Exec(p, packet, 11, packet[6]);
    assert Exec(p, packet, 8, packet[2]) == Exec(p, packet, 9, packet[3]);
    assert Exec(p, packet, 6, packet[1]) == Exec(p, packet, 7, packet[2]);
    assert Exec(p, packet, 4, a) == Exec(p, packet, 5, packet[1]);
  }

  /** Instructions 13 to 25: the long-header branch. */
  lemma LongBranch(packet: seq<Byte>, n: U32, a: nat)
    ensures Exec(Program(n), packet, 13, a) ==
              Returns(if |packet| >= 18 && packet[5] == 12 && packet[6] == MAGIC_0 && packet[7] == MAGIC_1
                         && packet[8] == CID_VERSION && packet[11] < n
                      then packet[11] else FALLBACK)
  {
    var p := Program(n);
    Rejects(packet, n, |packet|);
    assert Exec(p, packet, 13, a) == Exec(p, packet, 14, |packet|);
    assert Exec(p, packet, 14, |packet|) == Exec(p, packet, if |packet| >= 18 then 15 else 26, |packet|);
    if |packet| >= 18 {
      Rejects(packet, n, packet[5]);
      Rejects(packet, n, packet[6]);
      Rejects(packet, n, packet[7]);
      Rejects(packet, n, packet[8]);
      Rejects(packet, n, packet[11]);
      assert Exec(p, packet, 24, packet[11]) == Returns(if packet[11] < n then packet[11] else FALLBACK);
      assert Exec(p, packet, 23, packet[8]) == Exec(p, packet, 24, packet[11]);
      assert Exec(p, packet, 21, packet[7]) == Exec(p, packet, 22, packet[8]);
      assert Exec(p, packet, 19, packet[6]) == Exec(p, packet, 20, packet[7]);
      assert Exec(p, packet, 17, packet[5]) == Exec(p, packet, 18, packet[6]);
      assert Exec(p, packet, 15, |packet|) == Exec(p, packet, 16, packet[5]);
    }
  }

  /** For every packet and every socket count the kernel program returns what the reference
      returns, and no load ever leaves the packet. */
  lemma ProgramEqualsReference(packet: seq<Byte>, socketCount: U32)
    ensures Exec(Program(socketCount), packet, 0, 0) == Returns(Classify(packet, socketCount))
  {
    hide Exec;
    HeaderForm(packet, socketCount);
    if |packet| >= 13 {
      ShortBranch(packet, socketCount, packet[0]);
      LongBranch(packet, socketCount, packet[0]);
    }
  }

  /** Instructions 0 to 3: too short, or which branch. */
  lemma HeaderForm(packet: seq<Byte>, n: U32)
    ensures Exec(Program(n), packet, 0, 0) ==
              if |packet| < 13 then Returns(FALLBACK)
              else Exec(Program(n), packet, if packet[0] >= 0x80 then 13 else 4, packet[0])
  {
    var p := Program(n);
    Rejects(packet, n, |packet|);
    assert Exec(p, packet, 0, 0) == Exec(p, packet, 1, |packet|);
    if |packet| >= 13 {
      TopBit(packet[0]);
      assert Exec(p, packet, 2, |packet|) == Exec(p, packet, 3, packet[0]);
    }
  }

  /** Where a packet keeps the destination CID a server of this cluster would have issued, by the
      header forms of sections 17.2 and 17.3 of RFC 9000. */
  function DestinationCid(packet: seq<Byte>): Option<seq<Byte>> {
    if |packet| < 13 then None
    else if packet[0] < 0x80 then Some(packet[1..13])
    else if |packet| < 18 || packet[5] != 12 then None
    else Some(packet[6..18])
  }

  /** Both classifiers send a packet to worker `w` exactly when it carries a CID of this cluster's
      layout naming `w`, and `w` is one of the sockets. */
  lemma RoutesExactlyItsOwnCids(packet: seq<Byte>, socketCount: U32, w: U32)
    requires w != FALLBACK
    ensures Exec(Program(socketCount), packet, 0, 0) == Returns(w) <==>
              && w < socketCount && DestinationCid(packet).Some?
              && exists node: U16 :: w < 256 && DestinationCid(packet).value == EncodeCid(node, w, DestinationCid(packet).value[6..])
  {
    ProgramEqualsReference(packet, socketCount);
    hide Exec, Program;
    if DestinationCid(packet).Some? {
      var cid := DestinationCid(packet).value;
      if cid[0] == MAGIC_0 && cid[1] == MAGIC_1 && cid[2] == CID_VERSION {
        var node: U16 := (cid[3] as int) * 256 + cid[4] as int;
        assert cid == EncodeCid(node, cid[5], cid[6..]);
      }
    }
  }

  /** A packet carrying a CID this node issued reaches the Worker named in it, short or long header. */
  lemma IssuedCidReachesItsWorker(packet: seq<Byte>, socketCount: U32, node: U16, worker: Byte, entropy: seq<Byte>)
    requires |entropy| == 6 && DestinationCid(packet) == Some(EncodeCid(node, worker, entropy))
    ensures Exec(Program(socketCount), packet, 0, 0) == Returns(if worker < socketCount then worker else FALLBACK)
    ensures node != 0 ==> ParseCid(DestinationCid(packet).value) == Some(Fields(node, worker))
  {
    ProgramEqualsReference(packet, socketCount);
    ParseOfEncode(node, worker, entropy);
    hide Exec, Program;
    assert DestinationCid(packet).value[5] == worker;
  }

  /** The classifiers do not look at the node: a CID of node 0 is routed although it never parses. */
  lemma NodeZeroIsRouted(packet: seq<Byte>, socketCount: U32, worker: Byte, entropy: seq<Byte>)
    requires |entropy| == 6 && worker < socketCount && DestinationCid(packet) == Some(EncodeCid(0, worker, entropy))
    ensures Exec(Program(socketCount), packet, 0, 0) == Returns(worker)
    ensures ParseCid(DestinationCid(packet).value) == None
  {
    IssuedCidReachesItsWorker(packet, socketCount, 0, worker, entropy);
    ParseOfEncode(0, worker, entropy);
    hide *;
  }
}
