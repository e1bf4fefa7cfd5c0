/** Pure theory of the open-addressing table behind the connection index: cyclic distances,
    the probe-chain invariant and what one backward shift does to it. Everything here holds
    for an arbitrary hash function `h` with values below the table size. */
module ProbeTable {

  type Key = nat

  /** What a registrant hands over: its context pointer and its hook table. */
  datatype Owner = Owner(ctx: nat, hooks: nat)

  datatype Entry = Vacant | Taken(cnx: Key, owner: Owner)

  /** `(i + 1) & mask`. */
  function Next(i: nat, n: nat): (r: nat)
    requires i < n
    ensures r < n
  {
    if i + 1 == n then 0 else i + 1
  }

  /** `(to -% from) & mask`: how many probe steps lead from one slot to another. */
  function Distance(from: nat, to: nat, n: nat): (r: nat)
    requires from < n && to < n
    ensures r < n
  {
    if from <= to then to - from else n - from + to
  }

  ghost predicate InRange(h: Key -> nat, n: nat) {
    0 < n && forall k :: h(k) < n
  }

  /** Every taken slot except a removed one is reachable: no vacant slot lies between the ideal
      slot of its key and the slot it occupies. `hole` is exempt; pass |e| to exempt nothing. */
  ghost predicate Chained(e: seq<Entry>, h: Key -> nat, hole: nat)
    requires InRange(h, |e|)
  {
    forall p, q | 0 <= p < |e| && 0 <= q < |e| && e[p].Taken? && q != hole ::
      Distance(h(e[p].cnx), q, |e|) < Distance(h(e[p].cnx), p, |e|) ==> e[q].Taken?
  }

  ghost predicate Distinct(e: seq<Entry>) {
    forall p, q :: 0 <= p < q < |e| && e[p].Taken? && e[q].Taken? ==> e[p].cnx != e[q].cnx
  }

  /** The table read as a relation: which owner a key is bound to. */
  ghost predicate Binds(e: seq<Entry>, k: Key, o: Owner) {
    Taken(k, o) in e
  }

  /** The table represents exactly the finite map `m`. */
  ghost predicate Represents(e: seq<Entry>, m: map<Key, Owner>) {
    && Distinct(e)
    && (forall p :: 0 <= p < |e| && e[p].Taken? ==> e[p].cnx in m && m[e[p].cnx] == e[p].owner)
    && (forall k :: k in m ==> Binds(e, k, m[k]))
  }

  function Occupied(e: seq<Entry>): (r: nat)
    ensures r <= |e|
  {
    if e == [] then 0 else (if e[0].Taken? then 1 else 0) + Occupied(e[1..])
  }

  lemma {:induction false} OccupiedUpdate(e: seq<Entry>, i: nat, x: Entry)
    requires i < |e|
    ensures Occupied(e[i := x])
         == Occupied(e) - (if e[i].Taken? then 1 else 0) + (if x.Taken? then 1 else 0)
  {
    if i == 0 {
      assert e[i := x][1..] == e[1..];
    } else {
      assert e[i := x][1..] == e[1..][i - 1 := x];
      OccupiedUpdate(e[1..], i - 1, x);
    }
  }

  lemma {:induction false} VacantOccupiesNothing(e: seq<Entry>)
    requires forall p :: 0 <= p < |e| ==> e[p].Vacant?
    ensures Occupied(e) == 0
  {
    if e != [] {
      VacantOccupiesNothing(e[1..]);
    }
  }

  /** A table that is not full has a vacant slot, so every probe stops. */
  lemma {:induction false} RoomMeansVacancy(e: seq<Entry>) returns (z: nat)
    requires Occupied(e) < |e|
    ensures z < |e| && e[z].Vacant?
  {
    if e[0].Vacant? {
      z := 0;
    } else {
      z := RoomMeansVacancy(e[1..]);
      z := z + 1;
    }
  }

  /** A probe for `k` has passed every slot before `stop`: all taken, all by other keys. */
  ghost predicate Probed(e: seq<Entry>, h: Key -> nat, k: Key, stop: nat)
    requires InRange(h, |e|) && stop < |e|
  {
    forall q | 0 <= q < |e| && Distance(h(k), q, |e|) < Distance(h(k), stop, |e|) ::
      e[q].Taken? && e[q].cnx != k
  }

  /** One probe step moves on by exactly one slot and cannot pass the vacant slot `z`. */
  lemma ProbeStep(e: seq<Entry>, h: Key -> nat, k: Key, i: nat, z: nat)
    requires InRange(h, |e|) && i < |e| && z < |e| && e[z].Vacant?
    requires Distance(h(k), i, |e|) <= Distance(h(k), z, |e|)
    requires Probed(e, h, k, i) && e[i].Taken? && e[i].cnx != k
    ensures Probed(e, h, k, Next(i, |e|))
    ensures Distance(h(k), Next(i, |e|), |e|) == Distance(h(k), i, |e|) + 1
    ensures Distance(h(k), Next(i, |e|), |e|) <= Distance(h(k), z, |e|)
  {
  }

  /** If a probe from the ideal slot of `k` reaches a vacant slot without meeting `k`, the key
      is bound nowhere in the table. */
  lemma ProbeMissMeansAbsent(e: seq<Entry>, h: Key -> nat, k: Key, stop: nat)
    requires InRange(h, |e|) && Chained(e, h, |e|)
    requires stop < |e| && e[stop].Vacant? && Probed(e, h, k, stop)
    ensures forall p :: 0 <= p < |e| && e[p].Taken? ==> e[p].cnx != k
  {
  }

  /** Filling the vacant slot a probe stopped at keeps every chain intact. */
  lemma FillKeepsChains(e: seq<Entry>, h: Key -> nat, k: Key, o: Owner, stop: nat)
    requires InRange(h, |e|) && Chained(e, h, |e|)
    requires stop < |e| && Probed(e, h, k, stop)
    requires e[stop].Taken? ==> e[stop].cnx == k
    ensures Chained(e[stop := Taken(k, o)], h, |e|)
  {
  }

  /** Binding a key in the representation: the old binding of the same key, or a fresh slot. */
  lemma FillRepresents(e: seq<Entry>, m: map<Key, Owner>, k: Key, o: Owner, stop: nat)
    requires Represents(e, m) && stop < |e|
    requires e[stop].Taken? ==> e[stop].cnx == k
    requires e[stop].Vacant? ==> forall p :: 0 <= p < |e| && e[p].Taken? ==> e[p].cnx != k
    ensures Represents(e[stop := Taken(k, o)], m[k := o])
    ensures e[stop].Vacant? ==> k !in m
  {
    var e' := e[stop := Taken(k, o)];
    var m' := m[k := o];
    assert k in m ==> Binds(e, k, m[k]);
    forall j | j in m' ensures Binds(e', j, m'[j]) {
      if j == k {
        assert e'[stop] == Taken(k, o);
      } else {
        assert Binds(e, j, m[j]);
        var p :| 0 <= p < |e| && e[p] == Taken(j, m[j]);
        assert e'[p] == e[p];
      }
    }
  }

  /** Clearing the slot of a key removes exactly that key from the representation. */
  lemma ClearRepresents(e: seq<Entry>, m: map<Key, Owner>, k: Key, at: nat)
    requires Represents(e, m) && at < |e| && e[at].Taken? && e[at].cnx == k
    ensures k in m && Represents(e[at := Vacant], m - {k})
  {
    var e' := e[at := Vacant];
    forall j | j in m - {k} ensures Binds(e', j, (m - {k})[j]) {
      assert Binds(e, j, m[j]);
      var p :| 0 <= p < |e| && e[p] == Taken(j, m[j]);
      assert e'[p] == e[p];
    }
  }

  /** Moving an entry into a vacant slot does not change what the table represents. */
  lemma MoveRepresents(e: seq<Entry>, m: map<Key, Owner>, hole: nat, j: nat)
    requires Represents(e, m) && hole < |e| && j < |e| && e[hole].Vacant? && e[j].Taken?
    ensures Represents(e[hole := e[j]][j := Vacant], m)
  {
    var e' := e[hole := e[j]][j := Vacant];
    forall k | k in m ensures Binds(e', k, m[k]) {
      assert Binds(e, k, m[k]);
      var p :| 0 <= p < |e| && e[p] == Taken(k, m[k]);
      if p == j {
        assert e'[hole] == e[j];
      } else {
        assert e'[p] == e[p];
      }
    }
  }

  /** The part of a shift scan that is already done: strictly between the hole and `j` every slot
      is taken, and the entry there does not want to move across the hole. */
  ghost predicate Scanned(e: seq<Entry>, h: Key -> nat, hole: nat, j: nat)
    requires InRange(h, |e|) && hole < |e| && j < |e|
  {
    forall p :: 0 <= p < |e| && 0 < Distance(hole, p, |e|) < Distance(hole, j, |e|) ==>
      e[p].Taken? && Distance(h(e[p].cnx), hole, |e|) > Distance(h(e[p].cnx), p, |e|)
  }

  /** One shift: the entry at `j` moves into the hole and `j` becomes the new hole. */
  lemma ShiftKeepsChains(e: seq<Entry>, h: Key -> nat, hole: nat, j: nat)
    requires InRange(h, |e|) && hole < |e| && j < |e| && hole != j
    requires e[hole].Vacant? && e[j].Taken?
    requires Chained(e, h, hole)
    requires Distance(h(e[j].cnx), hole, |e|) <= Distance(h(e[j].cnx), j, |e|)
    ensures Chained(e[hole := e[j]][j := Vacant], h, j)
  {
    var e' := e[hole := e[j]][j := Vacant];
    var n := |e|;
    forall p, q | 0 <= p < n && 0 <= q < n && e'[p].Taken? && q != j
      && Distance(h(e'[p].cnx), q, n) < Distance(h(e'[p].cnx), p, n)
      ensures e'[q].Taken?
    {
      if q != hole {
        if p == hole {
          assert e'[p] == e[j];
          assert Distance(h(e[j].cnx), q, n) < Distance(h(e[j].cnx), j, n);
        } else {
          assert e'[p] == e[p];
        }
        assert e[q].Taken?;
      }
    }
  }

  /** When the scan reaches a vacant slot, no chain runs across the hole any more. */
  lemma ScanEndClosesChains(e: seq<Entry>, h: Key -> nat, hole: nat, j: nat)
    requires InRange(h, |e|) && hole < |e| && j < |e| && hole != j
    requires e[hole].Vacant? && e[j].Vacant?
    requires Chained(e, h, hole) && Scanned(e, h, hole, j)
    ensures Chained(e, h, |e|)
  {
    // A probe running across the hole would end either at a scanned entry, which does not reach
    // back past the hole, or beyond j, and would then also run across the vacant slot j.
    forall p, q | 0 <= p < |e| && 0 <= q < |e| && e[p].Taken?
      && Distance(h(e[p].cnx), q, |e|) < Distance(h(e[p].cnx), p, |e|)
      ensures e[q].Taken?
    {
    }
  }

  /** What the shift loop of a removal started at slot `i` keeps, on the table in which the hole
      is already cleared; `z` is a vacant slot of the original table. */
  ghost predicate Shifting(e: seq<Entry>, h: Key -> nat, m: map<Key, Owner>, i: nat, z: nat, hole: nat, j: nat)
    requires InRange(h, |e|) && i < |e|
  {
    && z < |e| && hole < |e| && j < |e| && hole != j && hole != z
    && e[hole].Vacant? && e[z].Vacant?
    && Distance(i, hole, |e|) < Distance(i, j, |e|) <= Distance(i, z, |e|)
    && Chained(e, h, hole) && Scanned(e, h, hole, j)
    && Represents(e, m) && Occupied(e) == |m|
  }

  /** Clearing the hole before or after the move makes no difference. */
  lemma MoveCommutes(s: seq<Entry>, hole: nat, j: nat)
    requires hole < |s| && j < |s| && hole != j
    ensures s[hole := Vacant][hole := s[hole := Vacant][j]][j := Vacant]
         == s[hole := s[j]][j := Vacant][j := Vacant]
  {
  }

  lemma {:induction false} ShiftStart(e: seq<Entry>, h: Key -> nat, m: map<Key, Owner>, k: Key, i: nat, z: nat)
    requires InRange(h, |e|) && Chained(e, h, |e|) && Represents(e, m) && Occupied(e) == |m|
    requires i < |e| && e[i].Taken? && e[i].cnx == k && z < |e| && e[z].Vacant?
    ensures Shifting(e[i := Vacant], h, m - {k}, i, z, i, Next(i, |e|))
  {
    hide Occupied, Represents, Scanned;
    ClearRepresents(e, m, k, i);
    OccupiedUpdate(e, i, Vacant);
    ScanBegins(e[i := Vacant], h, i);
    assert |m - {k}| == |m| - 1 by {
      assert (m - {k}).Keys == m.Keys - {k};
    }
  }

  lemma DistanceNext(i: nat, j: nat, z: nat, n: nat)
    requires i < n && j < n && z < n && j != z && Distance(i, j, n) <= Distance(i, z, n)
    ensures Distance(i, Next(j, n), n) == Distance(i, j, n) + 1 <= Distance(i, z, n)
  {
  }

  lemma ScanExtends(e: seq<Entry>, h: Key -> nat, hole: nat, j: nat)
    requires InRange(h, |e|) && hole < |e| && j < |e| && Next(j, |e|) != hole && j != hole
    requires Scanned(e, h, hole, j) && e[j].Taken?
    requires Distance(h(e[j].cnx), hole, |e|) > Distance(h(e[j].cnx), j, |e|)
    ensures Scanned(e, h, hole, Next(j, |e|))
  {
  }

  lemma ScanBegins(e: seq<Entry>, h: Key -> nat, hole: nat)
    requires InRange(h, |e|) && hole < |e|
    ensures Scanned(e, h, hole, Next(hole, |e|))
  {
  }

  lemma {:induction false} ShiftSkip(e: seq<Entry>, h: Key -> nat, m: map<Key, Owner>, i: nat, z: nat, hole: nat, j: nat)
    requires InRange(h, |e|) && i < |e| && Shifting(e, h, m, i, z, hole, j) && e[j].Taken?
    requires Distance(h(e[j].cnx), hole, |e|) > Distance(h(e[j].cnx), j, |e|)
    ensures Shifting(e, h, m, i, z, hole, Next(j, |e|))
    ensures Distance(i, Next(j, |e|), |e|) == Distance(i, j, |e|) + 1
  {
    DistanceNext(i, j, z, |e|);
    ScanExtends(e, h, hole, j);
  }

  lemma {:induction false} ShiftMove(e: seq<Entry>, h: Key -> nat, m: map<Key, Owner>, i: nat, z: nat, hole: nat, j: nat)
    requires InRange(h, |e|) && i < |e| && Shifting(e, h, m, i, z, hole, j) && e[j].Taken?
    requires Distance(h(e[j].cnx), hole, |e|) <= Distance(h(e[j].cnx), j, |e|)
    ensures Shifting(e[hole := e[j]][j := Vacant], h, m, i, z, j, Next(j, |e|))
    ensures Distance(i, Next(j, |e|), |e|) == Distance(i, j, |e|) + 1
  {
    ShiftKeepsChains(e, h, hole, j);
    MoveRepresents(e, m, hole, j);
    OccupiedUpdate(e, hole, e[j]);
    OccupiedUpdate(e[hole := e[j]], j, Vacant);
    DistanceNext(i, j, z, |e|);
    ScanBegins(e[hole := e[j]][j := Vacant], h, j);
  }
}

/** The connection index itself: an array probed linearly, deleting by backward shift. */
module ConnectionIndex {
  import opened Options
  import opened ProbeTable
  import opened Words
  import opened StreamHandles

  const FIBONACCI: nat := 0x9E37_79B9_7F4A_7C15

  /** `size` is a power of two, which is what makes `x & (size - 1)` a remainder. */
  predicate PowerOfTwo(size: nat) {
    size == 1 || (size > 1 && size % 2 == 0 && PowerOfTwo(size / 2))
  }

  /** `(@intFromPtr(cnx) *% FIBONACCI) >> 32 & mask`. */
  function FibonacciHash(size: nat): (h: Key -> nat)
    requires size > 0
    ensures InRange(h, size)
  {
    (k: Key) => (k * FIBONACCI % 0x1_0000_0000_0000_0000 / 0x1_0000_0000) % size
  }

  /** In the source's terms: multiply, shift right by 32, mask. */
  lemma HashIsUpperBits(bits: nat, k: Word)
    requires bits <= 32
    ensures FibonacciHash(Pow2(bits))(k) == And(Shr(MulWrap(k, 0x9E37_79B9_7F4A_7C15), 32), Pow2(bits) - 1)
  {
    FieldWidths();
    var mixed := MulWrap(k, 0x9E37_79B9_7F4A_7C15);
    ShrDivides(mixed, 32);
    AndLowMask(Shr(mixed, 32), bits);
  }

  class CnxIndex {
    const hash: Key -> nat
    const entries: array<Entry>
    /** The finite map the table stands for. */
    ghost var Contents: map<Key, Owner>

    ghost predicate Valid()
      reads this, entries
    {
      && InRange(hash, entries.Length)
      && Chained(entries[..], hash, entries.Length)
      && Represents(entries[..], Contents)
      && Occupied(entries[..]) == |Contents| < entries.Length
    }

    constructor (capacity: nat)
      ensures Valid() && Contents == map[]
      ensures entries.Length >= 8 && entries.Length >= 2 * capacity && PowerOfTwo(entries.Length)
      ensures fresh(entries)
    {
      var size := 8;
      assert PowerOfTwo(4);
      while size < capacity * 2
        invariant size >= 8 && PowerOfTwo(size)
      {
        assert (size * 2) / 2 == size;
        size := size * 2;
      }
      hash := FibonacciHash(size);
      entries := new Entry[size](_ => Vacant);
      Contents := map[];
      new;
      VacantOccupiesNothing(entries[..]);
    }

    method Find(cnx: Key) returns (r: Option<Owner>)
      requires Valid()
      ensures r == if cnx in Contents then Some(Contents[cnx]) else None
    {
      var i := Locate(cnx);
      if entries[i].Taken? {
        r := Some(entries[i].owner);
      } else {
        r := None;
      }
    }

    /** The probe loop shared by find, put and remove: the slot of `cnx`, or the vacant slot
        the probe stops at. */
    method Locate(cnx: Key) returns (i: nat)
      requires Valid()
      ensures i < entries.Length
      ensures entries[i].Taken? <==> cnx in Contents
      ensures entries[i].Taken? ==> entries[i].cnx == cnx && Contents[cnx] == entries[i].owner
      ensures Probed(entries[..], hash, cnx, i)
    {
      ghost var e, n := entries[..], entries.Length;
      ghost var z := RoomMeansVacancy(e);
      i := hash(cnx);
      while entries[i].Taken? && entries[i].cnx != cnx
        invariant i < n && Distance(hash(cnx), i, n) <= Distance(hash(cnx), z, n)
        invariant Probed(e, hash, cnx, i)
        decreases Distance(hash(cnx), z, n) - Distance(hash(cnx), i, n)
      {
        ProbeStep(e, hash, cnx, i, z);
        i := Next(i, entries.Length);
      }
      if entries[i].Vacant? {
        ProbeMissMeansAbsent(e, hash, cnx, i);
        assert cnx in Contents ==> Binds(e, cnx, Contents[cnx]);
      }
    }

    /** Insertion needs a key that is already present or room for one more vacant slot. */
    method Put(cnx: Key, owner: Owner)
      requires Valid()
      requires cnx in Contents || |Contents| + 1 < entries.Length
      modifies this, entries
      ensures Valid() && Contents == old(Contents)[cnx := owner]
    {
      var i := Locate(cnx);
      ghost var e := entries[..];
      FillKeepsChains(e, hash, cnx, owner, i);
      if e[i].Vacant? {
        ProbeMissMeansAbsent(e, hash, cnx, i);
      }
      FillRepresents(e, Contents, cnx, owner, i);
      OccupiedUpdate(e, i, Taken(cnx, owner));
      entries[i] := Taken(cnx, owner);
      Contents := Contents[cnx := owner];
      assert entries[..] == e[i := Taken(cnx, owner)];
    }

    method Remove(cnx: Key)
      requires Valid()
      modifies this, entries
      ensures Valid() && Contents == old(Contents) - {cnx}
    {
      var i := Locate(cnx);
      if entries[i].Vacant? {
        assert Contents - {cnx} == Contents;
        return;
      }
      ghost var z := RoomMeansVacancy(entries[..]);
      ShiftStart(entries[..], hash, Contents, cnx, i, z);
      Contents := Contents - {cnx};
      CloseGap(i, Contents, z);
    }

    method MoveBack(hole: nat, j: nat)
      requires hole < entries.Length && j < entries.Length && hole != j
      modifies entries
      ensures entries[..] == old(entries[..][hole := entries[j]][j := Vacant])
    {
      entries[hole] := entries[j];
      entries[j] := Vacant;
    }

    /** The backward shift: closes the gap left at slot `i` without a tombstone. */
    method CloseGap(i: nat, ghost m: map<Key, Owner>, ghost z: nat)
      requires InRange(hash, entries.Length) && i < entries.Length
      requires Shifting(entries[..][i := Vacant], hash, m, i, z, i, Next(i, entries.Length))
      modifies entries
      ensures Chained(entries[..], hash, entries.Length) && Represents(entries[..], m)
      ensures Occupied(entries[..]) == |m|
    {
      var hole: nat := i;
      var j: nat := Next(i, entries.Length);
      // The table as it will be once the hole is cleared.
      ghost var e := entries[..][i := Vacant];
      while entries[j].Taken?
        invariant hole < |e| == entries.Length && e == entries[..][hole := Vacant]
        invariant Shifting(e, hash, m, i, z, hole, j)
        decreases Distance(i, z, |e|) - Distance(i, j, |e|)
      {
        var ideal := hash(entries[j].cnx);
        if Distance(ideal, hole, entries.Length) <= Distance(ideal, j, entries.Length) {
          ShiftMove(e, hash, m, i, z, hole, j);
          MoveCommutes(entries[..], hole, j);
          e := e[hole := e[j]][j := Vacant];
          MoveBack(hole, j);
          hole := j;
        } else {
          ShiftSkip(e, hash, m, i, z, hole, j);
        }
        j := Next(j, entries.Length);
      }
      ScanEndClosesChains(e, hash, hole, j);
      entries[hole] := Vacant;
      assert entries[..] == e;
    }
  }
}
