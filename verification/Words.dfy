/** Unsigned numbers as words: the bitwise operators of C, in arithmetic. */
module Words {
  /** Exclusive or, and conjunction, of two numbers in binary. */
  function Xor(a: nat, b: nat): nat {
    if a == 0 && b == 0 then 0 else (a + b) % 2 + 2 * Xor(a / 2, b / 2)
  }

  function And(a: nat, b: nat): nat {
    if a == 0 && b == 0 then 0 else a % 2 * (b % 2) + 2 * And(a / 2, b / 2)
  }

  function Power(k: nat): (p: nat)
    ensures p > 0
  {
    if k == 0 then 1 else 2 * Power(k - 1)
  }

  lemma HalfFirst(a: nat, p: nat)
    requires p > 0
    ensures a / 2 / p == a / (2 * p) && a % (2 * p) == 2 * (a / 2 % p) + a % 2
  {
    var q, r := a / 2 / p, a / 2 % p;
    assert a == 2 * (q * p + r) + a % 2;
    assert a == q * (2 * p) + (2 * r + a % 2);
    Unique(a, 2 * p, q, 2 * r + a % 2);
  }

  lemma Unique(a: nat, d: nat, q: nat, r: nat)
    requires d > 0 && a == q * d + r && r < d
    ensures a / d == q && a % d == r
  {
    var x := a / d - q;
    assert x * d + a % d == r;
    ProductBounds(x, d);
  }

  lemma ProductBounds(x: int, d: nat)
    requires d > 0
    ensures x > 0 ==> x * d >= d
    ensures x < 0 ==> x * d <= 0 - d
  {
  }

  lemma XorHalf(a: nat, b: nat)
    ensures Xor(a, b) / 2 == Xor(a / 2, b / 2)
  {
  }

  lemma PowerNext(k: nat)
    ensures Power(0) == 1 && Power(k + 1) == 2 * Power(k)
  {
  }

  /** A shift to the right. */
  function High(a: nat, k: nat): nat {
    if k == 0 then a else High(a / 2, k - 1)
  }

  lemma {:induction false} HighDivides(a: nat, k: nat)
    ensures High(a, k) == a / Power(k)
  {
    if k > 0 {
      HighDivides(a / 2, k - 1);
      HalfFirst(a, Power(k - 1));
    }
  }

  lemma {:induction false} XorHigh(a: nat, b: nat, k: nat)
    ensures High(Xor(a, b), k) == Xor(High(a, k), High(b, k))
  {
    if k > 0 {
      XorHalf(a, b);
      XorHigh(a / 2, b / 2, k - 1);
    }
  }

  lemma {:induction false} XorZero(a: nat, b: nat)
    ensures Xor(a, b) == 0 <==> a == b
  {
    if a != 0 || b != 0 {
      XorZero(a / 2, b / 2);
    }
  }

  lemma AndHalf(a: nat, b: nat)
    ensures And(a, 2 * b + 1) == a % 2 + 2 * And(a / 2, b)
  {
    assert (2 * b + 1) / 2 == b && (2 * b + 1) % 2 == 1;
  }

  lemma {:induction false} AndLow(a: nat, k: nat)
    ensures And(a, Power(k) - 1) == a % Power(k)
  {
    hide And, Power;
    PowerNext(if k > 0 then k - 1 else 0);
    if k > 0 {
      var p := Power(k - 1);
      HalfFirst(a, p);
      AndHalf(a, p - 1);
      AndLow(a / 2, k - 1);
      assert And(a, 2 * p - 1) == a % (2 * p);
    } else {
      AndNone(a);
    }
  }

  lemma {:induction false} AndNone(a: nat)
    ensures And(a, 0) == 0
  {
    if a > 0 {
      AndNone(a / 2);
    }
  }

  lemma Powers()
    ensures Power(16) == 0x1_0000 && Power(24) == 0x100_0000
  {
    assert Power(8) == 0x100;
    assert Power(12) == 0x1000;
    assert Power(20) == 0x10_0000;
  }

  /** Two words with different top bytes, and only those, differ by 2^24 or more. */
  lemma TopDiffers(a: nat, b: nat)
    ensures Xor(a, b) >= 0x100_0000 <==> a / 0x100_0000 != b / 0x100_0000
  {
    hide Xor, High, Power;
    Powers();
    HighDivides(a, 24);
    HighDivides(b, 24);
    HighDivides(Xor(a, b), 24);
    XorHigh(a, b, 24);
    XorZero(High(a, 24), High(b, 24));
  }

  /** The lower half of a word. */
  lemma LowHalf(a: nat)
    ensures And(a, 0xFFFF) == a % 0x1_0000
  {
    Powers();
    AndLow(a, 16);
  }
}
