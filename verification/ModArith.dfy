/**
  Arithmetic modulo a positive number, and powers.

  Every lemma takes the modulus as a parameter, so the proofs about the field never look at the digits of
  2^255 - 19.
 */
module ModArith {

  function Pow(x: int, n: nat): (r: int)
    decreases n
  {
    if n == 0 then 1 else x * Pow(x, n - 1)
  }

  // Two(n) == 2^n
  function Two(n: nat): (r: nat)
    ensures r > 0
  {
    if n == 0 then 1 else 2 * Two(n - 1)
  }

  lemma {:induction false} TwoAdd(a: nat, b: nat)
    ensures Two(a + b) == Two(a) * Two(b)
  {
    if a == 0 {
    } else {
      TwoAdd(a - 1, b);
      assert Two(a + b) == 2 * Two(a - 1 + b);
    }
  }

  lemma {:induction false} PowAdd(x: int, a: nat, b: nat)
    ensures Pow(x, a + b) == Pow(x, a) * Pow(x, b)
    decreases a
  {
    if a == 0 {
    } else {
      PowAdd(x, a - 1, b);
      calc {
        Pow(x, a + b);
        x * Pow(x, a - 1 + b);
        x * (Pow(x, a - 1) * Pow(x, b));
        (x * Pow(x, a - 1)) * Pow(x, b);
      }
    }
  }

  // Quotient and remainder are the only pair with a remainder in range.
  lemma DivModUnique(x: int, q: int, r: int, m: int)
    requires 0 <= r < m
    requires x == q * m + r
    ensures x / m == q && x % m == r
  {
    var q', r' := x / m, x % m;
    assert (q - q') * m == r' - r;
    assert (q' - q) * m == r - r';
    if q > q' {
      MulMono(1, q - q', m);
    } else if q < q' {
      MulMono(1, q' - q, m);
    }
  }

  lemma MulMono(a: int, b: int, m: int)
    requires a <= b && 0 <= m
    ensures a * m <= b * m
  {
  }

  // x and y leave the same remainder when they differ by a multiple of m.
  lemma ModEq(x: int, y: int, k: int, m: int)
    requires m > 0 && x == y + k * m
    ensures x % m == y % m
  {
    assert x == (y / m + k) * m + y % m;
    DivModUnique(x, y / m + k, y % m, m);
  }

  lemma ModMul(a: int, b: int, m: int)
    requires m > 0
    ensures ((a % m) * (b % m)) % m == (a * b) % m
    ensures ((a % m) * b) % m == (a * b) % m
    ensures (a * (b % m)) % m == (a * b) % m
  {
    ModMulLeft(a, b, m);
    ModMulLeft(b, a, m);
    ModMulLeft(b, a % m, m);
  }

  lemma ModMulLeft(a: int, b: int, m: int)
    requires m > 0
    ensures ((a % m) * b) % m == (a * b) % m == (b * (a % m)) % m
  {
    var q, r := a / m, a % m;
    assert (q * m + r) * b == r * b + (q * b) * m;
    ModEq(a * b, r * b, q * b, m);
  }

  lemma ModAdd(a: int, b: int, m: int)
    requires m > 0
    ensures ((a % m) + (b % m)) % m == (a + b) % m
    ensures ((a % m) + b) % m == (a + b) % m
    ensures (a + (b % m)) % m == (a + b) % m
  {
    ModEq(a + b, (a % m) + (b % m), a / m + b / m, m);
    ModEq(a + b, (a % m) + b, a / m, m);
    ModEq(a + b, a + (b % m), b / m, m);
  }

  lemma ModSub(a: int, b: int, m: int)
    requires m > 0
    ensures ((a % m) - (b % m)) % m == (a - b) % m
    ensures ((a % m) - b) % m == (a - b) % m
    ensures (a - (b % m)) % m == (a - b) % m
  {
    ModEq(a - b, (a % m) - (b % m), a / m - b / m, m);
    ModEq(a - b, (a % m) - b, a / m, m);
    ModEq(a - b, a - (b % m), -(b / m), m);
  }

  lemma ModIdem(a: int, m: int)
    requires m > 0
    ensures (a % m) % m == a % m
    ensures 0 <= a < m ==> a % m == a
  {
  }

  // A product of two residues of powers of x is the residue of the power with the summed exponent.
  lemma PowMulMod(x: int, a: nat, b: nat, m: int)
    requires m > 0
    ensures ((Pow(x, a) % m) * (Pow(x, b) % m)) % m == Pow(x, a + b) % m
  {
    PowAdd(x, a, b);
    ModMul(Pow(x, a), Pow(x, b), m);
  }

  // floor(x / a) / b == floor(x / (a * b))
  lemma DivDiv(x: int, a: int, b: int)
    requires a > 0 && b > 0
    ensures a * b > 0
    ensures x / a / b == x / (a * b)
  {
    var q, r := x / a, x % a;
    var q', r' := q / b, q % b;
    TwoDivisions(x, a, b, q, r, q', r');
    DivModUnique(x, q', r' * a + r, a * b);
  }

  lemma TwoDivisions(x: int, a: int, b: int, q: int, r: int, q': int, r': int)
    requires x == q * a + r && 0 <= r < a
    requires q == q' * b + r' && 0 <= r' < b
    ensures x == q' * (a * b) + (r' * a + r) && 0 <= r' * a + r < a * b
  {
    assert q * a == (q' * b + r') * a;
    assert q' * b * a == q' * (a * b);
    MulMono(0, r', a);
    MulMono(r', b - 1, a);
    assert (b - 1) * a == a * b - a;
  }
}
