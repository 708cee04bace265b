/** C's bitwise operators on unsigned values, as arithmetic on natural numbers. */
module CBits {
  function Pow2(k: nat): (p: nat)
    ensures p >= 1
  {
    if k == 0 then 1 else 2 * Pow2(k - 1)
  }

  const WORD: nat := 0x1_0000_0000

  function And(a: nat, b: nat): nat {
    if a == 0 || b == 0 then 0 else (if a % 2 == 1 && b % 2 == 1 then 1 else 0) + 2 * And(a / 2, b / 2)
  }

  function Or(a: nat, b: nat): nat
    decreases a + b
  {
    if a == 0 then b else if b == 0 then a
    else (if a % 2 == 1 || b % 2 == 1 then 1 else 0) + 2 * Or(a / 2, b / 2)
  }

  /** << on a 32-bit unsigned. */
  function Shl(a: nat, k: nat): nat {
    (a * Pow2(k)) % WORD
  }

  /** >>, one place at a time. */
  function Shr(a: nat, k: nat): nat {
    if k == 0 then a else Shr(a / 2, k - 1)
  }

  /** Shifting right by k divides by 2 to the k. */
  lemma {:induction false} ShrIsDiv(a: nat, k: nat)
    ensures Shr(a, k) == a / Pow2(k)
    decreases k
  {
    if k > 0 {
      ShrIsDiv(a / 2, k - 1);
      DivDiv(a, Pow2(k - 1));
    }
  }

  lemma {:induction false} DivNonneg(a: nat, m: nat)
    requires m > 0
    ensures a / m >= 0
  {
    var q := a / m;
    assert a == m * q + a % m;
    NegativeProduct(m, q);
  }

  lemma {:induction false} NegativeProduct(m: nat, q: int)
    ensures q < 0 ==> m * q + m <= 0
    decreases if q < 0 then -q else 0
  {
    if q < -1 {
      NegativeProduct(m, q + 1);
      assert m * (q + 1) == m * q + m;
    }
  }

  lemma {:induction false} DivDiv(a: nat, p: nat)
    requires p > 0
    ensures a / (2 * p) == (a / 2) / p
  {
    var q, r := (a / 2) / p, (a / 2) % p;
    DivNonneg(a / 2, p);
    assert a / 2 == p * q + r;
    assert a == 2 * (p * q + r) + a % 2;
    MulAssoc(2, p, q);
    ModIs(a, 2 * p, q, 2 * r + a % 2);
  }

  lemma {:induction false} Pow2Add(a: nat, b: nat)
    ensures Pow2(a + b) == Pow2(a) * Pow2(b)
    decreases a
  {
    if a > 0 {
      Pow2Add(a - 1, b);
      MulAssoc(2, Pow2(a - 1), Pow2(b));
    }
  }

  lemma {:induction false} MulAssoc(a: nat, b: nat, c: nat)
    ensures a * (b * c) == (a * b) * c
  {
  }

  lemma {:induction false} Pow2Values()
    ensures Pow2(0) == 1 && Pow2(1) == 2 && Pow2(2) == 4 && Pow2(3) == 8 && Pow2(4) == 16 && Pow2(5) == 32
    ensures Pow2(6) == 64 && Pow2(7) == 128 && Pow2(8) == 256 && Pow2(9) == 512 && Pow2(10) == 1024
    ensures Pow2(16) == 0x10000
  {
    assert Pow2(1) == 2 * Pow2(0) && Pow2(2) == 2 * Pow2(1) && Pow2(3) == 2 * Pow2(2) && Pow2(4) == 2 * Pow2(3);
    assert Pow2(5) == 2 * Pow2(4) && Pow2(6) == 2 * Pow2(5) && Pow2(7) == 2 * Pow2(6) && Pow2(8) == 2 * Pow2(7);
    assert Pow2(9) == 2 * Pow2(8) && Pow2(10) == 2 * Pow2(9);
    Pow2Add(8, 8);
  }

  /** Masking with k low ones is the remainder by 2 to the k. */
  lemma {:induction false} AndMask(a: nat, k: nat)
    ensures And(a, Pow2(k) - 1) == a % Pow2(k)
    decreases k
  {
    if k > 0 {
      var p := Pow2(k - 1);
      assert Pow2(k) == 2 * p;
      if a > 0 {
        AndMask(a / 2, k - 1);
        assert (Pow2(k) - 1) % 2 == 1 && (Pow2(k) - 1) / 2 == p - 1;
        ModHalf(a, p);
        AndUnfold(a, Pow2(k) - 1);
      } else {
        assert 0 % Pow2(k) == 0;
      }
    } else {
      assert Pow2(0) - 1 == 0;
    }
  }

  lemma {:induction false} AndUnfold(a: nat, b: nat)
    ensures And(a, b) == (if a % 2 == 1 && b % 2 == 1 then 1 else 0) + 2 * And(a / 2, b / 2)
  {
  }

  lemma {:induction false} ModHalf(a: nat, p: nat)
    requires p >= 1
    ensures a % (2 * p) == a % 2 + 2 * ((a / 2) % p)
  {
    var q, r := (a / 2) / p, (a / 2) % p;
    DivNonneg(a / 2, p);
    assert a / 2 == p * q + r;
    assert a == 2 * (p * q + r) + a % 2;
    MulAssoc(2, p, q);
    ModIs(a, 2 * p, q, 2 * r + a % 2);
  }

  lemma {:induction false} ModIs(a: nat, m: nat, q: nat, r: nat)
    requires a == m * q + r && r < m
    ensures a % m == r && a / m == q
  {
    var q2, r2 := a / m, a % m;
    DivNonneg(a, m);
    assert a == m * q2 + r2;
    if q2 < q { MulGap(m, q2, q); }
    if q < q2 { MulGap(m, q, q2); }
  }

  lemma {:induction false} MulGap(m: nat, a: nat, b: nat)
    requires a < b
    ensures m * a + m <= m * b
    decreases b
  {
    if a + 1 < b {
      MulGap(m, a, b - 1);
      assert m * (b - 1) + m == m * b;
    } else {
      assert m * (a + 1) == m * a + m;
    }
  }

  /** Or of a value below 2 to the k with a multiple of 2 to the k is their sum. */
  lemma {:induction false} OrDisjoint(a: nat, b: nat, k: nat)
    requires a < Pow2(k)
    ensures Or(a, b * Pow2(k)) == a + b * Pow2(k)
    decreases k
  {
    if k > 0 {
      var p := Pow2(k - 1);
      assert Pow2(k) == 2 * p;
      Twice(b, p);
      if a > 0 && b > 0 {
        OrDisjoint(a / 2, b, k - 1);
        OrUnfold(a, b * Pow2(k));
      }
    }
  }

  lemma {:induction false} Twice(b: nat, p: nat)
    ensures b * (2 * p) == 2 * (b * p)
  {
  }

  lemma {:induction false} OrUnfold(a: nat, b: nat)
    ensures Or(a, b) == (if a % 2 == 1 || b % 2 == 1 then 1 else 0) + 2 * Or(a / 2, b / 2)
  {
    if a == 0 { OrZero(b / 2); }
  }

  lemma {:induction false} OrZero(b: nat)
    ensures Or(0, b) == b && Or(b, 0) == b
  {
  }
}
