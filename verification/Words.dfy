/** 64-bit words as naturals: bits, exclusive or, shifts and wrap-around multiplication. */
module Words {

  const WORD: nat := 0x1_0000_0000_0000_0000

  type Word = x: int | 0 <= x < WORD

  /** Bit `i`, counted from the low end. */
  predicate Bit(x: nat, i: nat) {
    if i == 0 then x % 2 == 1 else Bit(x / 2, i - 1)
  }

  function Pow2(k: nat): (r: nat)
    ensures r > 0
  {
    if k == 0 then 1 else 2 * Pow2(k - 1)
  }

  lemma WordIsPow2()
    ensures Pow2(64) == WORD
  {
    assert Pow2(8) == 0x100;
    assert Pow2(16) == 0x1_0000 by { assert Pow2(12) == 0x1000; }
    PowStep(16, 0x1_0000);
    PowStep(32, 0x1_0000_0000);
  }

  lemma PowStep(k: nat, p: nat)
    requires Pow2(k) == p
    ensures Pow2(2 * k) == p * p
  {
    PowAdd(k, k);
  }

  lemma {:induction false} PowAdd(a: nat, b: nat)
    ensures Pow2(a + b) == Pow2(a) * Pow2(b)
  {
    if a > 0 {
      PowAdd(a - 1, b);
      assert Pow2(a + b) == 2 * (Pow2(a - 1) * Pow2(b));
    }
  }

  lemma MulAtLeast(k: int, d: nat)
    requires k >= 1
    ensures k * d >= d
  {
    assert k * d == d + (k - 1) * d;
  }

  lemma DivModUnique(y: nat, d: nat, q: nat, r: nat)
    requires d > 0 && r < d && y == q * d + r
    ensures y / d == q && y % d == r
  {
    var q', r' := y / d, y % d;
    QuotientUnique(d, q, r, q', r');
  }

  lemma QuotientUnique(d: nat, q: nat, r: nat, q': nat, r': nat)
    requires r < d && r' < d && q * d + r == q' * d + r'
    ensures q == q' && r == r'
  {
    if q > q' {
      MulAtLeast(q - q', d);
    } else if q < q' {
      MulAtLeast(q' - q, d);
    }
  }

  /** The low bits of the double. */
  lemma ModDouble(y: nat, p: nat)
    requires p > 0
    ensures y % (2 * p) == y % 2 + 2 * ((y / 2) % p)
  {
    var q, r := (y / 2) / p, (y / 2) % p;
    assert y / 2 == q * p + r;
    assert y == q * (2 * p) + (2 * r + y % 2);
    DivModUnique(y, 2 * p, q, 2 * r + y % 2);
  }

  lemma DivDouble(y: nat, p: nat)
    requires p > 0
    ensures (y / 2) / p == y / (2 * p)
  {
    var q, r := (y / 2) / p, (y / 2) % p;
    assert y / 2 == q * p + r;
    assert y == q * (2 * p) + (2 * r + y % 2);
    DivModUnique(y, 2 * p, q, 2 * r + y % 2);
  }

  lemma {:induction false} BitIsQuotient(x: nat, i: nat)
    ensures Bit(x, i) <==> x / Pow2(i) % 2 == 1
    decreases i
  {
    if i > 0 {
      BitIsQuotient(x / 2, i - 1);
      DivDouble(x, Pow2(i - 1));
    }
  }

  /** Truncation keeps the bits below the width. */
  lemma {:induction false} BitOfMod(y: nat, k: nat, i: nat)
    requires i < k
    ensures Bit(y % Pow2(k), i) == Bit(y, i)
  {
    ModDouble(y, Pow2(k - 1));
    if i > 0 {
      BitOfMod(y / 2, k - 1, i - 1);
      assert (y % Pow2(k)) / 2 == (y / 2) % Pow2(k - 1);
    }
  }

  // ---- exclusive or ----

  /** Bitwise exclusive or. */
  function Xor(a: nat, b: nat): nat
    decreases a + b
  {
    if a == 0 && b == 0 then 0 else (a + b) % 2 + 2 * Xor(a / 2, b / 2)
  }

  lemma XorHalves(a: nat, b: nat)
    ensures Xor(a, b) / 2 == Xor(a / 2, b / 2) && Xor(a, b) % 2 == (a + b) % 2
  {
  }

  lemma {:induction false} XorBits(a: nat, b: nat, i: nat)
    ensures Bit(Xor(a, b), i) <==> Bit(a, i) != Bit(b, i)
    decreases i
  {
    XorHalves(a, b);
    hide Xor;
    if i > 0 {
      XorBits(a / 2, b / 2, i - 1);
    }
  }

  lemma Halves(x: nat, y: nat)
    requires x / 2 == y / 2 && x % 2 == y % 2
    ensures x == y
  {
  }

  lemma ParityUndoes(x: nat, b: nat, y: nat, a: nat)
    requires x % 2 == (a + b) % 2 && y % 2 == (x + b) % 2
    ensures y % 2 == a % 2
  {
  }

  lemma {:induction false} XorUndoes(a: nat, b: nat)
    ensures Xor(Xor(a, b), b) == a
    decreases a + b
  {
    XorHalves(a, b);
    XorHalves(Xor(a, b), b);
    ParityUndoes(Xor(a, b), b, Xor(Xor(a, b), b), a);
    if a == 0 && b == 0 {
      assert Xor(0, 0) == 0;
    } else {
      hide Xor;
      XorUndoes(a / 2, b / 2);
      Halves(Xor(Xor(a, b), b), a);
    }
  }

  lemma {:induction false} XorCommutes(a: nat, b: nat)
    ensures Xor(a, b) == Xor(b, a)
    decreases a + b
  {
    if a != 0 || b != 0 {
      XorCommutes(a / 2, b / 2);
    }
  }

  lemma {:induction false} XorFits(a: nat, b: nat, k: nat)
    requires a < Pow2(k) && b < Pow2(k)
    ensures Xor(a, b) < Pow2(k)
    decreases k
  {
    if k > 0 {
      XorFits(a / 2, b / 2, k - 1);
    }
  }

  function XorWord(a: Word, b: Word): Word {
    WordIsPow2();
    XorFits(a, b, 64);
    Xor(a, b)
  }

  /** With one side fixed, exclusive or is injective in the other. */
  lemma XorInjective(h: Word, a: Word, b: Word)
    requires Xor(h, a) == Xor(h, b)
    ensures a == b
  {
    XorCommutes(h, a);
    XorCommutes(h, b);
    XorUndoes(a, h);
    XorUndoes(b, h);
  }

  // ---- wrap-around multiplication ----

  /** `a *% k`. */
  function MulWrap(a: Word, k: Word): Word {
    (a * k) % WORD
  }

  /** Multiplying back by the inverse of an odd constant: with `k * inv == 1 + t * 2^64`, the
      product `r` of `a` and `k` modulo 2^64 gives `a` again. */
  lemma MulUndoes(a: Word, k: Word, inv: Word, t: nat)
    requires k * inv == 1 + t * WORD
    ensures (MulWrap(a, k) * inv) % WORD == a
  {
    var q := (a * k) / WORD;
    var r := MulWrap(a, k);
    assert a * k == q * WORD + r;
    assert r * inv == a * k * inv - q * WORD * inv;
    assert a * k * inv == a + a * t * WORD by {
      assert a * k * inv == a * (k * inv);
    }
    var z := a * t - q * inv;
    assert r * inv == a + z * WORD;
    assert z >= 0;
    DivModUnique(r * inv, WORD, z, a);
  }

  // ---- a 64-bit set of small numbers ----

  /** `seen | (1 << i)`. */
  function SetBit(x: nat, i: nat): nat {
    if i == 0 then x - x % 2 + 1 else x % 2 + 2 * SetBit(x / 2, i - 1)
  }

  lemma {:induction false} SetBitBits(x: nat, i: nat, j: nat)
    ensures Bit(SetBit(x, i), j) <==> j == i || Bit(x, j)
    decreases i
  {
    if i == 0 {
      assert SetBit(x, 0) / 2 == x / 2;
    } else {
      assert SetBit(x, i) / 2 == SetBit(x / 2, i - 1);
      if j > 0 {
        SetBitBits(x / 2, i - 1, j - 1);
      }
    }
  }

  lemma {:induction false} SetBitFits(x: nat, i: nat, k: nat)
    requires x < Pow2(k) && i < k
    ensures SetBit(x, i) < Pow2(k)
    decreases i
  {
    if i > 0 {
      SetBitFits(x / 2, i - 1, k - 1);
    }
  }

  /** `x << n`, bits beyond the width dropped. */
  function ShiftLeft(x: Word, n: nat): Word {
    if n == 0 then x else (2 * ShiftLeft(x, n - 1)) % WORD
  }

  lemma {:induction false} ShiftLeftBits(x: Word, n: nat, i: nat)
    requires i < 64
    ensures Bit(ShiftLeft(x, n), i) <==> n <= i && Bit(x, i - n)
    decreases n
  {
    if n > 0 {
      var y := 2 * ShiftLeft(x, n - 1);
      WordIsPow2();
      BitOfMod(y, 64, i);
      if i > 0 {
        ShiftLeftBits(x, n - 1, i - 1);
        assert y / 2 == ShiftLeft(x, n - 1);
      }
    }
  }
}
