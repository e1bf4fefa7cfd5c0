/** Backend stream handles: connection id, connection generation and QUIC stream id packed into one
    64-bit word with shifts and masks, and the selector that names one connection generation. */
module StreamHandles {
  import opened Words

  const STREAM_ID_BITS: nat := 32
  const GENERATION_BITS: nat := 16
  const GENERATIONS: nat := 0x1_0000
  const STREAM_IDS: nat := 0x1_0000_0000

  type ConnId = x: int | 0 <= x < 0x1_0000
  type Generation = x: int | 0 <= x < GENERATIONS
  type StreamId = x: int | 0 <= x < STREAM_IDS
  /** Connection id and generation, as failures are queued. */
  type ConnKey = x: int | 0 <= x < 0x1_0000_0000

  /** Bitwise or. */
  function Or(a: nat, b: nat): nat
    decreases a + b
  {
    if a == 0 && b == 0 then 0
    else (if a % 2 == 1 || b % 2 == 1 then 1 else 0) + 2 * Or(a / 2, b / 2)
  }

  /** Bitwise and. */
  function And(a: nat, b: nat): nat
    decreases a + b
  {
    if a == 0 && b == 0 then 0
    else (if a % 2 == 1 && b % 2 == 1 then 1 else 0) + 2 * And(a / 2, b / 2)
  }

  function Shl(a: nat, k: nat): nat {
    a * Pow2(k)
  }

  function Shr(a: nat, k: nat): nat
    decreases k
  {
    if k == 0 then a else Shr(a / 2, k - 1)
  }

  lemma {:induction false} ShrDivides(a: nat, k: nat)
    ensures Shr(a, k) == a / Pow2(k)
    decreases k
  {
    if k > 0 {
      ShrDivides(a / 2, k - 1);
      DivDouble(a, Pow2(k - 1));
    }
  }

  lemma {:induction false} OrZero(b: nat)
    ensures Or(0, b) == b
  {
    if b != 0 {
      OrZero(b / 2);
    }
  }

  lemma DoubleHalves(a: nat, k: nat)
    requires k > 0
    ensures a * Pow2(k) == 2 * (a * Pow2(k - 1)) && (a * Pow2(k)) / 2 == a * Pow2(k - 1) && (a * Pow2(k)) % 2 == 0
  {
  }

  /** Or-ing a field into cleared low bits is adding it. */
  lemma {:induction false} OrIsSum(a: nat, k: nat, b: nat)
    requires b < Pow2(k)
    ensures Or(Shl(a, k), b) == a * Pow2(k) + b
    decreases k
  {
    if k == 0 {
      OrSymmetric(a, 0);
      OrZero(a);
    } else {
      DoubleHalves(a, k);
      OrIsSum(a, k - 1, b / 2);
    }
  }

  lemma {:induction false} OrSymmetric(a: nat, b: nat)
    ensures Or(a, b) == Or(b, a)
    decreases a + b
  {
    if a != 0 || b != 0 {
      OrSymmetric(a / 2, b / 2);
    }
  }

  /** Masking with ones keeps the low bits. */
  lemma {:induction false} AndLowMask(a: nat, k: nat)
    ensures And(a, Pow2(k) - 1) == a % Pow2(k)
    decreases k
  {
    hide And;
    if k == 0 {
      AndZero(a);
    } else {
      hide Pow2;
      LowMaskHalves(a, k);
      AndLowMask(a / 2, k - 1);
      ModDouble(a, Pow2(k - 1));
    }
  }

  /** One bit of the mask. */
  lemma LowMaskHalves(a: nat, k: nat)
    requires k > 0
    ensures And(a, Pow2(k) - 1) == a % 2 + 2 * And(a / 2, Pow2(k - 1) - 1)
    ensures Pow2(k) == 2 * Pow2(k - 1)
  {
    hide And, Pow2;
    OnesHalve(k);
    AndHalves(a, Pow2(k) - 1);
  }

  lemma OnesHalve(k: nat)
    requires k > 0
    ensures Pow2(k) == 2 * Pow2(k - 1) && (Pow2(k) - 1) / 2 == Pow2(k - 1) - 1 && (Pow2(k) - 1) % 2 == 1
  {
  }

  lemma AndHalves(a: nat, b: nat)
    ensures And(a, b) == (if a % 2 == 1 && b % 2 == 1 then 1 else 0) + 2 * And(a / 2, b / 2)
  {
  }

  lemma {:induction false} AndZero(a: nat)
    ensures And(a, 0) == 0
  {
    if a != 0 {
      AndZero(a / 2);
    }
  }

  /** A shifted mask keeps a field in place. */
  lemma {:induction false} AndShiftedMask(a: nat, m: nat, k: nat)
    ensures And(a, Shl(Pow2(m) - 1, k)) == Shl(Shr(a, k) % Pow2(m), k)
    decreases k
  {
    if k == 0 {
      AndLowMask(a, m);
    } else {
      var mask := Pow2(m) - 1;
      DoubleHalves(mask, k);
      AndShiftedMask(a / 2, m, k - 1);
      DivDouble(a, Pow2(k - 1));
      DoubleHalves(Shr(a, k) % Pow2(m), k);
      if a == 0 && Shl(mask, k) == 0 {
        assert Shr(a, k) % Pow2(m) == 0;
      }
    }
  }

  lemma FieldWidths()
    ensures Pow2(STREAM_ID_BITS) == STREAM_IDS && Pow2(GENERATION_BITS) == GENERATIONS
    ensures Pow2(GENERATION_BITS + STREAM_ID_BITS) == GENERATIONS * STREAM_IDS
  {
    assert Pow2(8) == 0x100;
    PowStep(8, 0x100);
    PowStep(16, 0x1_0000);
    PowAdd(16, 32);
  }

  // ---- packing ----

  function MakeHandle(id: ConnId, generation: Generation, stream: StreamId): (h: Word)
    ensures h == ((id as nat) * GENERATIONS + generation) * STREAM_IDS + stream
  {
    FieldWidths();
    OrIsSum(id, GENERATION_BITS + STREAM_ID_BITS, Shl(generation, STREAM_ID_BITS));
    assert Shl(id, 48) + Shl(generation, 32) == Shl(id * GENERATIONS + generation, 32);
    OrIsSum(id * GENERATIONS + generation, STREAM_ID_BITS, stream);
    Or(Or(Shl(id, GENERATION_BITS + STREAM_ID_BITS), Shl(generation, STREAM_ID_BITS)), stream)
  }

  function HandleConnId(h: Word): ConnId {
    FieldWidths();
    ShrDivides(h, GENERATION_BITS + STREAM_ID_BITS);
    Shr(h, GENERATION_BITS + STREAM_ID_BITS)
  }

  function HandleGeneration(h: Word): Generation {
    FieldWidths();
    AndLowMask(Shr(h, STREAM_ID_BITS), GENERATION_BITS);
    And(Shr(h, STREAM_ID_BITS), GENERATIONS - 1)
  }

  function HandleStreamId(h: Word): StreamId {
    FieldWidths();
    AndLowMask(h, STREAM_ID_BITS);
    And(h, Shl(1, STREAM_ID_BITS) - 1)
  }

  /** What the three field readers compute. */
  lemma FieldsAreDigits(h: Word)
    ensures HandleConnId(h) == h / STREAM_IDS / GENERATIONS
    ensures HandleGeneration(h) == h / STREAM_IDS % GENERATIONS
    ensures HandleStreamId(h) == h % STREAM_IDS
  {
    FieldWidths();
    ShrDivides(h, GENERATION_BITS + STREAM_ID_BITS);
    ShrDivides(h, STREAM_ID_BITS);
    AndLowMask(Shr(h, STREAM_ID_BITS), GENERATION_BITS);
    AndLowMask(h, STREAM_ID_BITS);
    hide Shr, And, Pow2;
    QuotientOfQuotient(h);
  }

  lemma QuotientOfQuotient(h: Word)
    ensures h / (GENERATIONS * STREAM_IDS) == h / STREAM_IDS / GENERATIONS
  {
  }

  /** Unpacking returns exactly what was packed. */
  lemma UnpackOfPack(id: ConnId, generation: Generation, stream: StreamId)
    ensures var h := MakeHandle(id, generation, stream);
            HandleConnId(h) == id && HandleGeneration(h) == generation && HandleStreamId(h) == stream
  {
    var h := MakeHandle(id, generation, stream);
    hide MakeHandle;
    FieldsAreDigits(h);
    DivModUnique(h, STREAM_IDS, id * GENERATIONS + generation, stream);
    DivModUnique(id * GENERATIONS + generation, GENERATIONS, id, generation);
  }

  /** Every 64-bit word is the handle of its fields: together with UnpackOfPack, a bijection. */
  lemma PackOfUnpack(h: Word)
    ensures MakeHandle(HandleConnId(h), HandleGeneration(h), HandleStreamId(h)) == h
  {
    hide MakeHandle;
    FieldsAreDigits(h);
  }

  lemma DistinctFieldsDistinctHandles(id: ConnId, g: Generation, s: StreamId, id': ConnId, g': Generation, s': StreamId)
    ensures MakeHandle(id, g, s) == MakeHandle(id', g', s') <==> id == id' && g == g' && s == s'
  {
    UnpackOfPack(id, g, s);
    UnpackOfPack(id', g', s');
  }

  // ---- failure selectors ----

  function ConnectionKey(id: ConnId, generation: Generation): (k: ConnKey)
    ensures k == (id as nat) * GENERATIONS + generation
  {
    FieldWidths();
    OrIsSum(id, GENERATION_BITS, generation);
    Or(Shl(id, GENERATION_BITS), generation)
  }

  lemma KeysAreDistinct(id: ConnId, g: Generation, id': ConnId, g': Generation)
    ensures ConnectionKey(id, g) == ConnectionKey(id', g') <==> id == id' && g == g'
  {
    if ConnectionKey(id, g) == ConnectionKey(id', g') {
      QuotientUnique(GENERATIONS, id, g, id', g');
    }
  }

  datatype StreamSelector = StreamSelector(mask: Word, value: Word) {
    predicate Matches(stream: Word) {
      And(stream, mask) == value
    }
  }

  lemma SelectorFits(k: ConnKey)
    ensures Shl(k, STREAM_ID_BITS) < WORD && Shl(0xFFFF_FFFF, STREAM_ID_BITS) < WORD
  {
    FieldWidths();
  }

  function FailureSelector(lastFailure: ConnKey): StreamSelector {
    SelectorFits(lastFailure);
    StreamSelector(Shl(0xFFFF_FFFF, STREAM_ID_BITS), Shl(lastFailure, STREAM_ID_BITS))
  }

  /** The selector of a failure matches the streams of one generation of one connection, and no
      other word at all. */
  lemma SelectorIsExact(id: ConnId, generation: Generation, h: Word)
    ensures FailureSelector(ConnectionKey(id, generation)).Matches(h) <==>
              HandleConnId(h) == id && HandleGeneration(h) == generation
  {
    hide ConnectionKey, And, HandleConnId, HandleGeneration;
    var (top, key) := (h / STREAM_IDS, ConnectionKey(id, generation));
    MaskedIsTop(key, h);
    FieldsAreDigits(h);
    DivModUnique(key, GENERATIONS, id, generation);
  }

  /** Under the mask only the upper half is compared. */
  lemma MaskedIsTop(key: ConnKey, h: Word)
    ensures FailureSelector(key).Matches(h) <==> h / STREAM_IDS == key
  {
    hide And, Shr;
    FieldWidths();
    AndShiftedMask(h, 32, STREAM_ID_BITS);
    ShrDivides(h, STREAM_ID_BITS);
    assert Shr(h, STREAM_ID_BITS) % Pow2(32) == h / STREAM_IDS;
  }

  /** A handle made from a stream matches exactly the failure of its own generation. */
  lemma SelectorMatchesOwnStreams(id: ConnId, generation: Generation, id': ConnId, g': Generation, s': StreamId)
    ensures FailureSelector(ConnectionKey(id, generation)).Matches(MakeHandle(id', g', s')) <==>
              id == id' && generation == g'
  {
    SelectorIsExact(id, generation, MakeHandle(id', g', s'));
    UnpackOfPack(id', g', s');
  }

  // ---- who opened a stream ----

  /** The low bit of a stream id names the endpoint that opened it (section 2.1 of RFC 9000). */
  predicate IsPeerInitiated(stream: nat) {
    And(stream, 1) == 1
  }

  /** Packing keeps the initiator bit, so it can be read off the handle. */
  lemma InitiatorSurvivesPacking(id: ConnId, generation: Generation, stream: StreamId)
    ensures IsPeerInitiated(MakeHandle(id, generation, stream)) <==> stream % 2 == 1
  {
    var h := MakeHandle(id, generation, stream);
    hide MakeHandle;
    assert Pow2(1) == 2;
    AndLowMask(h, 1);
    assert h == 2 * ((id * GENERATIONS + generation) * (STREAM_IDS / 2)) + stream;
  }
}
