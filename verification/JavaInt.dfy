/**
  Java's fixed-width integers.

  Arithmetic on these types is checked by the verifier never to leave the range, so a sum or product written on
  int32 or int64 is one that does not wrap. The bitwise operators are given on the infinite two's-complement
  expansion of an integer, least significant bit first: for operands in range they agree with Java's.
  Shifting right is division by a power of two rounding down, which is Dafny's `/` for a positive divisor.
 */
module JavaInt {
  import opened ModArith

  newtype int8 = x: int | -0x80 <= x < 0x80
  newtype int32 = x: int | -0x8000_0000 <= x < 0x8000_0000
  newtype int64 = x: int | -0x8000_0000_0000_0000 <= x < 0x8000_0000_0000_0000

  // The narrowing cast (byte) x.
  function ToByte(x: int): int8 {
    var low := x % 256;
    (if low < 128 then low else low - 256) as int8
  }

  // b & 0xFF
  function Unsigned(b: int8): (r: nat)
    ensures r < 256
  {
    (b as int) % 256
  }

  // The value an int holds after an operation that may wrap.
  function WrapInt(x: int): int32 {
    var low := x % 0x1_0000_0000;
    (if low < 0x8000_0000 then low else low - 0x1_0000_0000) as int32
  }

  // a & b
  function And(a: int, b: nat): (r: nat)
    ensures r <= b
    decreases b
  {
    if b == 0 then 0 else (a % 2) * (b % 2) + 2 * And(a / 2, b / 2)
  }

  // a | b
  function Or(a: int, b: nat): int
    decreases b
  {
    if b == 0 then a else (if a % 2 == 1 then 1 else b % 2) + 2 * Or(a / 2, b / 2)
  }

  lemma OrNat(a: nat, b: nat)
    ensures Or(a, b) >= 0
  {
  }

  // a ^ b
  function Xor(a: nat, b: nat): nat
    decreases a + b
  {
    if a + b == 0 then 0 else (a + b) % 2 + 2 * Xor(a / 2, b / 2)
  }

  function Bit(a: int, k: nat): (r: nat)
    ensures r < 2
  {
    (a / Two(k)) % 2
  }

  lemma Halves(bit: int, n: int)
    requires 0 <= bit < 2
    ensures (bit + 2 * n) / 2 == n && (bit + 2 * n) % 2 == bit
  {
  }

  lemma AndNone(a: int)
    ensures And(a, 0) == 0
  {
  }

  // Masking with k ones keeps the remainder, also for a negative value.
  lemma {:induction false} AndLow(a: int, k: nat)
    ensures And(a, Two(k) - 1) == a % Two(k)
    decreases k
  {
    hide And;
    if k == 0 {
      AndNone(a);
    } else {
      AndLow(a / 2, k - 1);
      TwoStep(k - 1);
      AndLowStep(a, Two(k - 1));
    }
  }

  lemma AndLowStep(a: int, h: nat)
    requires h > 0 && And(a / 2, h - 1) == (a / 2) % h
    ensures And(a, 2 * h - 1) == a % (2 * h)
  {
    hide And;
    AndOnes(a, h);
    RemainderByDoubling(a, h);
  }

  lemma TwoStep(k: nat)
    ensures Two(k + 1) == 2 * Two(k)
  {
  }

  lemma AndOnes(a: int, h: nat)
    requires h > 0
    ensures And(a, 2 * h - 1) == a % 2 + 2 * And(a / 2, h - 1)
  {
    Halves(1, h - 1);
  }

  lemma RemainderByDoubling(a: int, h: int)
    requires h > 0
    ensures a % (2 * h) == a % 2 + 2 * ((a / 2) % h)
  {
    var q, r := (a / 2) / h, (a / 2) % h;
    assert a == q * (2 * h) + (2 * r + a % 2);
    DivModUnique(a, q, 2 * r + a % 2, 2 * h);
  }

  lemma {:induction false} AndMask(b: nat)
    ensures And(-1, b) == b && And(0, b) == 0
    decreases b
  {
    if b != 0 {
      AndMask(b / 2);
    }
  }

  lemma {:induction false} OrZero(a: nat)
    ensures Or(a, 0) == a && Or(0, a) == a
    decreases a
  {
    if a != 0 {
      OrZero(a / 2);
    }
  }

  // Setting bits below the k-th in a number that only has bits from there up is addition.
  lemma {:induction false} OrDisjoint(a: nat, b: int, k: nat)
    requires a < Two(k)
    ensures Or(b * Two(k), a) == a + b * Two(k)
    decreases k
  {
    if a == 0 {
    } else if k == 0 {
      assert false;
    } else {
      OrDisjoint(a / 2, b, k - 1);
      OrEven(b * Two(k - 1), a);
      DoubleProduct(b, k);
    }
  }

  lemma OrEven(c: int, a: nat)
    requires a > 0
    ensures Or(2 * c, a) == a % 2 + 2 * Or(c, a / 2)
  {
    Halves(0, c);
  }

  lemma DoubleProduct(b: int, k: nat)
    requires k > 0
    ensures b * Two(k) == 2 * (b * Two(k - 1))
  {
  }

  lemma {:induction false} XorCommutes(a: nat, b: nat)
    ensures Xor(a, b) == Xor(b, a)
    decreases a + b
  {
    if a + b != 0 {
      XorCommutes(a / 2, b / 2);
    }
  }

  lemma {:induction false} XorZero(a: nat)
    ensures Xor(a, 0) == a
    decreases a
  {
    if a != 0 {
      XorZero(a / 2);
    }
  }

  // Exclusive or with a ^ b turns a into b (and, with XorCommutes, b into a).
  lemma {:induction false} XorCancels(a: nat, b: nat)
    ensures Xor(a, Xor(a, b)) == b
    decreases a + b
  {
    hide Xor;
    XorNone();
    if a + b != 0 {
      XorUnfold(a, b);
      XorCancels(a / 2, b / 2);
      ParityCancels(a, b);
      XorStep(a, (a + b) % 2, Xor(a / 2, b / 2));
    }
  }

  lemma XorNone()
    ensures Xor(0, 0) == 0
  {
  }

  lemma XorUnfold(a: nat, b: nat)
    requires a + b != 0
    ensures Xor(a, b) == (a + b) % 2 + 2 * Xor(a / 2, b / 2)
  {
  }

  lemma ParityCancels(a: nat, b: nat)
    ensures (a % 2 + (a + b) % 2) % 2 == b % 2
  {
  }

  lemma XorStep(a: nat, bit: nat, rest: nat)
    requires bit < 2
    ensures Xor(a, bit + 2 * rest) == (a % 2 + bit) % 2 + 2 * Xor(a / 2, rest)
  {
    Halves(bit, rest);
    assert (a + (bit + 2 * rest)) % 2 == (a % 2 + bit) % 2;
  }

  lemma {:induction false} XorBound(a: nat, b: nat, k: nat)
    requires a < Two(k) && b < Two(k)
    ensures Xor(a, b) < Two(k)
    decreases k
  {
    if k > 0 && a + b != 0 {
      XorBound(a / 2, b / 2, k - 1);
    }
  }

  lemma BitStep(bit: int, n: int, k: nat)
    requires 0 <= bit < 2
    ensures Bit(bit + 2 * n, k) == if k == 0 then bit else Bit(n, k - 1)
  {
    Halves(bit, n);
    if k > 0 {
      DivDiv(bit + 2 * n, 2, Two(k - 1));
    }
  }

  lemma BitOfZero(k: nat)
    ensures Bit(0, k) == 0
  {
    DivModUnique(0, 0, 0, Two(k));
  }

  lemma BitUnfold(a: int, k: nat)
    ensures Bit(a, k) == if k == 0 then a % 2 else Bit(a / 2, k - 1)
  {
    hide Bit;
    BitStep(a % 2, a / 2, k);
  }

  lemma {:induction false} BitAnd(a: int, b: nat, k: nat)
    ensures Bit(And(a, b), k) == Bit(a, k) * Bit(b, k)
    decreases k
  {
    hide Bit, And;
    if b == 0 {
      AndNone(a);
      BitOfZero(k);
    } else {
      var both := (a % 2) * (b % 2);
      AndUnfold(a, b);
      BitsTimes(a % 2, b % 2);
      BitUnfold(a, k);
      BitUnfold(b, k);
      BitStep(both, And(a / 2, b / 2), k);
      if k > 0 {
        BitAnd(a / 2, b / 2, k - 1);
      }
    }
  }

  lemma AndUnfold(a: int, b: nat)
    requires b > 0
    ensures And(a, b) == (a % 2) * (b % 2) + 2 * And(a / 2, b / 2)
  {
  }

  lemma BitsTimes(x: int, y: int)
    requires 0 <= x < 2 && 0 <= y < 2
    ensures 0 <= x * y < 2
  {
    assert x == 0 || x == 1;
  }

  lemma {:induction false} BitOr(a: int, b: nat, k: nat)
    ensures Bit(Or(a, b), k) == if Bit(a, k) == 1 then 1 else Bit(b, k)
    decreases k
  {
    hide Bit, Or;
    if b == 0 {
      OrNone(a);
      BitOfZero(k);
    } else {
      OrUnfold(a, b);
      BitUnfold(a, k);
      BitUnfold(b, k);
      BitStep(if a % 2 == 1 then 1 else b % 2, Or(a / 2, b / 2), k);
      if k > 0 {
        BitOr(a / 2, b / 2, k - 1);
      }
    }
  }

  lemma OrNone(a: int)
    ensures Or(a, 0) == a
  {
  }

  lemma OrUnfold(a: int, b: nat)
    requires b > 0
    ensures Or(a, b) == (if a % 2 == 1 then 1 else b % 2) + 2 * Or(a / 2, b / 2)
  {
  }
}
