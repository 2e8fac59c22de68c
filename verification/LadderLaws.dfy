/**
  What the ladder of section 5 of RFC 7748 computes.
 */
module LadderLaws {
  import opened ModArith
  import opened JavaInt
  import opened Rfc7748

  // The ladder without the deferred swap: swap in, step, swap back.
  function SimpleLoop(k: int, u: int, n: nat): Points
    requires n <= 255
    decreases n
  {
    if n == 0 then Points(1, 0, u, 1)
    else
      var bit := Bit(k, 255 - n);
      Swap(bit, Step(u, Swap(bit, SimpleLoop(k, u, n - 1))))
  }

  // Folding the swap back of one bit into the swap in of the next changes nothing.
  lemma {:induction false} DeferredSwap(k: int, u: int, n: nat)
    requires n <= 255
    ensures Swap(Loop(k, u, n).swap, Loop(k, u, n).points) == SimpleLoop(k, u, n)
    ensures 0 <= Loop(k, u, n).swap <= 1
    decreases n
  {
    hide Step, Bit;
    if n > 0 {
      DeferredSwap(k, u, n - 1);
      var prev, bit := Loop(k, u, n - 1), Bit(k, 255 - n);
      assert Swap((prev.swap + bit) % 2, prev.points) == Swap(bit, Swap(prev.swap, prev.points));
    }
  }

  lemma LadderIsSimple(k: int, u: int)
    ensures Ladder(k, u) == SimpleLoop(k, u, 255)
  {
    DeferredSwap(k, u, 255);
  }

  // The formulas of section 4.1 for doubling and for adding points whose difference is (u : 1), on the
  // projective coordinates (x : z).
  function Squared(x: int): int { x * x }

  function DoubleX(x: int, z: int): int { Squared(x * x - z * z) }

  function DoubleZ(x: int, z: int): int { 4 * x * z * (x * x + 486662 * x * z + z * z) }

  function SumX(x: int, z: int, x': int, z': int): int { 4 * Squared(x * x' - z * z') }

  function SumZ(u: int, x: int, z: int, x': int, z': int): int { 4 * u * Squared(x' * z - x * z') }

  // Sums, differences and products depend on residues only.
  lemma Residues(x: int, x': int, y: int, y': int, m: int)
    requires m > 0 && x % m == x' % m && y % m == y' % m
    ensures (x + y) % m == (x' + y') % m
    ensures (x - y) % m == (x' - y') % m
    ensures (x * y) % m == (x' * y') % m
  {
    ModAdd(x, y, m);
    ModAdd(x', y', m);
    ModSub(x, y, m);
    ModSub(x', y', m);
    ModMul(x, y, m);
    ModMul(x', y', m);
  }

  lemma FieldResidues(x: int, x': int, y: int, y': int)
    requires x % P == x' % P && y % P == y' % P
    ensures FAdd(x, y) == (x' + y') % P == FAdd(x', y')
    ensures FSub(x, y) == (x' - y') % P == FSub(x', y')
    ensures FMul(x, y) == (x' * y') % P == FMul(x', y')
  {
    Residues(x, x', y, y', P);
  }

  lemma MulCong(x: int, x': int, y: int, y': int)
    requires x % P == x' % P && y % P == y' % P
    ensures FMul(x, y) % P == FMul(x, y) == (x' * y') % P
  {
    hide FMul, FAdd, FSub;
    FieldResidues(x, x', y, y');
    Idempotent(x' * y');
  }

  lemma Idempotent(x: int)
    ensures (x % P) % P == x % P
  {
  }

  lemma AddCong(x: int, x': int, y: int, y': int)
    requires x % P == x' % P && y % P == y' % P
    ensures FAdd(x, y) % P == (x' + y') % P
    ensures FSub(x, y) % P == (x' - y') % P
  {
    hide FMul, FAdd, FSub;
    FieldResidues(x, x', y, y');
    Idempotent(x' + y');
    Idempotent(x' - y');
  }

  // One pass of the loop doubles the first point and adds the two, modulo p.
  lemma StepFormulas(u: int, s: Points)
    ensures Step(u, s).x2 == DoubleX(s.x2, s.z2) % P
    ensures Step(u, s).z2 == DoubleZ(s.x2, s.z2) % P
    ensures Step(u, s).x3 == SumX(s.x2, s.z2, s.x3, s.z3) % P
    ensures Step(u, s).z3 == SumZ(u, s.x2, s.z2, s.x3, s.z3) % P
  {
    var x, z, x', z' := s.x2, s.z2, s.x3, s.z3;
    var a, b, c, d := FAdd(x, z), FSub(x, z), FAdd(x', z'), FSub(x', z');
    var aa, bb := FMul(a, a), FMul(b, b);
    var e := FSub(aa, bb);
    var da, cb := FMul(d, a), FMul(c, b);
    hide FAdd, FSub, FMul;
    AddCong(x, x, z, z);
    AddCong(x', x', z', z');
    MulCong(a, x + z, a, x + z);
    MulCong(b, x - z, b, x - z);
    AddCong(aa, (x + z) * (x + z), bb, (x - z) * (x - z));
    MulCong(d, x' - z', a, x + z);
    MulCong(c, x' + z', b, x - z);
    AddCong(da, (x' - z') * (x + z), cb, (x' + z') * (x - z));
    var s', t, p, q := (x + z) * (x + z), (x - z) * (x - z), x * x' - z * z', x' * z - x * z';
    SumPolynomials(x, z, x', z');
    DoubleXPolynomial(x, z);
    DoubleZPolynomial(x, z);
    MulCong(aa, s', bb, t);
    MulCong(A24, A24, e, s' - t);
    AddCong(aa, s', FMul(A24, e), A24 * (s' - t));
    MulCong(e, s' - t, FAdd(aa, FMul(A24, e)), s' + A24 * (s' - t));
    var sum, diff := FAdd(da, cb), FSub(da, cb);
    MulCong(sum, 2 * p, sum, 2 * p);
    MulCong(diff, 2 * q, diff, 2 * q);
    MulCong(u, u, FMul(diff, diff), (2 * q) * (2 * q));
    FourTimes(u, p, q);
  }

  lemma FourTimes(u: int, p: int, q: int)
    ensures (2 * p) * (2 * p) == 4 * Squared(p) && u * ((2 * q) * (2 * q)) == 4 * u * Squared(q)
  {
  }

  lemma DoubleXPolynomial(x: int, z: int)
    ensures ((x + z) * (x + z)) * ((x - z) * (x - z)) == DoubleX(x, z)
  {
    assert (x + z) * (x - z) == x * x - z * z;
    assert ((x + z) * (x + z)) * ((x - z) * (x - z)) == ((x + z) * (x - z)) * ((x + z) * (x - z));
  }

  lemma DoubleZPolynomial(x: int, z: int)
    ensures var e := (x + z) * (x + z) - (x - z) * (x - z);
            e * ((x + z) * (x + z) + A24 * e) == DoubleZ(x, z)
  {
    var e := (x + z) * (x + z) - (x - z) * (x - z);
    assert e == 4 * x * z;
    assert (x + z) * (x + z) == x * x + 2 * (x * z) + z * z;
    assert (x + z) * (x + z) + A24 * e == x * x + 486662 * x * z + z * z;
  }

  lemma SumPolynomials(x: int, z: int, x': int, z': int)
    ensures (x' - z') * (x + z) + (x' + z') * (x - z) == 2 * (x * x' - z * z')
    ensures (x' - z') * (x + z) - (x' + z') * (x - z) == 2 * (x' * z - x * z')
  {
  }

  // The classical ladder: with R0 and R1 the two points, a zero bit replaces (R0, R1) by (2 R0, R0 + R1) and a one
  // bit by (R0 + R1, 2 R1), in the formulas above and modulo p.
  lemma LadderRound(k: int, u: int, n: nat)
    requires 1 <= n <= 255
    ensures var r, r' := SimpleLoop(k, u, n - 1), SimpleLoop(k, u, n);
            if Bit(k, 255 - n) == 0 then
              && r'.x2 == DoubleX(r.x2, r.z2) % P && r'.z2 == DoubleZ(r.x2, r.z2) % P
              && r'.x3 == SumX(r.x2, r.z2, r.x3, r.z3) % P && r'.z3 == SumZ(u, r.x2, r.z2, r.x3, r.z3) % P
            else
              && r'.x3 == DoubleX(r.x3, r.z3) % P && r'.z3 == DoubleZ(r.x3, r.z3) % P
              && r'.x2 == SumX(r.x3, r.z3, r.x2, r.z2) % P && r'.z2 == SumZ(u, r.x3, r.z3, r.x2, r.z2) % P
  {
    hide Step, Bit, DoubleX, DoubleZ, SumX, SumZ;
    var r := SimpleLoop(k, u, n - 1);
    StepFormulas(u, Swap(Bit(k, 255 - n), r));
  }

  // A relation that goes with doubling and with adding neighbours: r(m, x, z) may say that (x : z) is m times the input.
  ghost predicate Multiples(u: int, r: (nat, int, int) -> bool) {
    && r(0, 1, 0) && r(1, u, 1)
    && (forall m: nat, x, z :: r(m, x, z) ==> r(2 * m, DoubleX(x, z) % P, DoubleZ(x, z) % P))
    && (forall m: nat, n: nat, x, z, x', z' :: n == m + 1 && r(m, x, z) && r(n, x', z')
          ==> r(m + n, SumX(x, z, x', z') % P, SumZ(u, x, z, x', z') % P))
  }

  // The n highest of 255 bits.
  function Highest(k: nat, n: nat): nat
    requires n <= 255
    decreases n
  {
    if n == 0 then 0 else 2 * Highest(k, n - 1) + Bit(k, 255 - n)
  }

  lemma {:induction false} HighestBits(k: nat, n: nat)
    requires n <= 255 && k < Two(255)
    ensures Highest(k, n) == k / Two(255 - n)
    decreases n
  {
    hide Two;
    if n == 0 {
      DivModUnique(k, 0, k, Two(255));
    } else {
      HighestBits(k, n - 1);
      HighestNext(k, n);
      hide Highest;
      Halved(k, 255 - n);
    }
  }

  lemma HighestNext(k: nat, n: nat)
    requires 1 <= n <= 255
    ensures Highest(k, n) == 2 * Highest(k, n - 1) + Bit(k, 255 - n)
  {
    hide Bit;
  }

  lemma Halved(k: nat, i: nat)
    ensures 2 * (k / Two(i + 1)) + Bit(k, i) == k / Two(i)
  {
    DivDiv(k, Two(i), 2);
  }

  // The ladder computes multiples: whatever goes with doubling and adding, and holds of none and one times the input,
  // holds of the scalar and the ladder's first point, and of the next multiple and the second.
  lemma LadderMultiplies(k: nat, u: int, r: (nat, int, int) -> bool)
    requires k < Two(255) && Multiples(u, r)
    ensures var s := Ladder(k, u); r(k, s.x2, s.z2) && r(k + 1, s.x3, s.z3)
  {
    hide Ladder, SimpleLoop, Highest, Multiples, Two;
    LadderIsSimple(k, u);
    RoundsMultiply(k, u, 255, r);
    HighestBits(k, 255);
    TwoZero();
  }

  lemma TwoZero()
    ensures Two(0) == 1
  {
  }

  lemma {:induction false} RoundsMultiply(k: nat, u: int, n: nat, r: (nat, int, int) -> bool)
    requires n <= 255 && Multiples(u, r)
    ensures var m, s := Highest(k, n), SimpleLoop(k, u, n); r(m, s.x2, s.z2) && r(m + 1, s.x3, s.z3)
    decreases n
  {
    hide Step, Swap, DoubleX, DoubleZ, SumX, SumZ, Two;
    if n > 0 {
      RoundsMultiply(k, u, n - 1, r);
      hide SimpleLoop, Bit, Multiples;
      LadderRound(k, u, n);
      var m, s := Highest(k, n - 1), SimpleLoop(k, u, n - 1);
      SumsCommute(u, s.x2, s.z2, s.x3, s.z3);
      OneRound(u, m, s, Bit(k, 255 - n), SimpleLoop(k, u, n), r);
    }
  }

  lemma OneRound(u: int, m: nat, s: Points, bit: nat, t: Points, r: (nat, int, int) -> bool)
    requires Multiples(u, r) && r(m, s.x2, s.z2) && r(m + 1, s.x3, s.z3) && bit < 2
    requires bit == 0 ==> t.x2 == DoubleX(s.x2, s.z2) % P && t.z2 == DoubleZ(s.x2, s.z2) % P
    requires bit == 1 ==> t.x3 == DoubleX(s.x3, s.z3) % P && t.z3 == DoubleZ(s.x3, s.z3) % P
    requires bit == 0 ==> t.x3 == SumX(s.x2, s.z2, s.x3, s.z3) % P && t.z3 == SumZ(u, s.x2, s.z2, s.x3, s.z3) % P
    requires bit == 1 ==> t.x2 == SumX(s.x2, s.z2, s.x3, s.z3) % P && t.z2 == SumZ(u, s.x2, s.z2, s.x3, s.z3) % P
    ensures r(2 * m + bit, t.x2, t.z2) && r(2 * m + bit + 1, t.x3, t.z3)
  {
    hide DoubleX, DoubleZ, SumX, SumZ;
    var n := m + 1;
    assert r(n, s.x3, s.z3);
    assert r(m + n, SumX(s.x2, s.z2, s.x3, s.z3) % P, SumZ(u, s.x2, s.z2, s.x3, s.z3) % P);
    assert m + n == 2 * m + 1;
    if bit == 0 {
      assert r(2 * m, t.x2, t.z2);
    } else {
      assert r(2 * n, t.x3, t.z3);
    }
  }

  // Neighbours can be added in either order.
  lemma SumsCommute(u: int, x: int, z: int, x': int, z': int)
    ensures SumX(x, z, x', z') == SumX(x', z', x, z) && SumZ(u, x, z, x', z') == SumZ(u, x', z', x, z)
  {
  }

  ghost predicate Congruent(s: Points, t: Points) {
    s.x2 % P == t.x2 % P && s.z2 % P == t.z2 % P && s.x3 % P == t.x3 % P && s.z3 % P == t.z3 % P
  }

  lemma StepCongruent(u: int, s: Points, v: int, t: Points)
    requires u % P == v % P && Congruent(s, t)
    ensures Step(u, s) == Step(v, t)
  {
    FieldResidues(s.x2, t.x2, s.z2, t.z2);
    FieldResidues(s.x3, t.x3, s.z3, t.z3);
    hide FAdd, FSub, FMul;
    var diff := FSub(FMul(FSub(s.x3, s.z3), FAdd(s.x2, s.z2)), FMul(FAdd(s.x3, s.z3), FSub(s.x2, s.z2)));
    FieldResidues(u, v, FMul(diff, diff), FMul(diff, diff));
  }

  lemma {:induction false} LoopCongruent(k: int, u: int, v: int, n: nat)
    requires n <= 255 && u % P == v % P
    ensures Loop(k, u, n).swap == Loop(k, v, n).swap
    ensures Congruent(Loop(k, u, n).points, Loop(k, v, n).points)
    ensures n > 0 ==> Loop(k, u, n) == Loop(k, v, n)
    decreases n
  {
    hide Step, Bit;
    if n > 0 {
      LoopCongruent(k, u, v, n - 1);
      var s, t := Loop(k, u, n - 1), Loop(k, v, n - 1);
      var swap := (s.swap + Bit(k, 255 - n)) % 2;
      StepCongruent(u, Swap(swap, s.points), v, Swap(swap, t.points));
    }
  }

  // A coordinate that is not reduced is processed as if it were, as section 5 asks.
  lemma X25519Reduces(k: int, u: int)
    ensures X25519(k, u) == X25519(k, u % P)
  {
    hide Loop, Pow, FMul;
    ModIdem(u, P);
    LoopCongruent(k, u, u % P, 255);
  }

  // What clamping makes of a number of 32 bytes: the three lowest bits are cleared, bit 254 is set and bit 255 cleared.
  lemma ClampExact(s: seq<int8>)
    requires |s| == 32
    ensures var n := LittleEndian(UnsignedBytes(s)); Scalar(s) == Two(254) + n % Two(254) - n % 8
    ensures Scalar(s) % 8 == 0 && Two(254) <= Scalar(s) < Two(255)
  {
    hide LittleEndian, Two, Clamp;
    var bytes := UnsignedBytes(s);
    var mid := LittleEndian(bytes[1..31]);
    BytesAround(bytes);
    HighPowers();
    ClampedSum(bytes[0], mid, bytes[31], Two(240));
  }

  lemma LowPowers()
    ensures Two(6) == 64 && Two(7) == 128 && Two(8) == 256
  {
  }

  lemma HighPowers()
    ensures Two(248) == 256 * Two(240) && Two(254) == 64 * (256 * Two(240)) && Two(255) == 128 * (256 * Two(240))
  {
    hide Two;
    LowPowers();
    TwoAdd(6, 248);
    TwoAdd(7, 248);
    TwoAdd(8, 240);
  }

  lemma BytesAround(bytes: seq<nat>)
    requires |bytes| == 32 && forall i :: 0 <= i < 32 ==> bytes[i] < 256
    ensures var first, mid, last := bytes[0], LittleEndian(bytes[1..31]), bytes[31];
            && mid < Two(240) && LittleEndian(bytes) == first + 256 * mid + last * Two(248)
            && LittleEndian(Clamp(bytes)) == first - first % 8 + 256 * mid + (last % 64 + 64) * Two(248)
  {
    hide LittleEndian, Two, Clamp;
    var first, last := bytes[0], bytes[31];
    ClampParts(bytes);
    Framed(first, bytes[1..31], last);
    Framed(first - first % 8, bytes[1..31], last % 64 + 64);
    LittleEndianBound(bytes[1..31]);
    assert bytes == [first] + bytes[1..31] + [last];
  }

  lemma ClampParts(bytes: seq<nat>)
    requires |bytes| == 32 && forall i :: 0 <= i < 32 ==> bytes[i] < 256
    ensures Clamp(bytes) == [bytes[0] - bytes[0] % 8] + bytes[1..31] + [bytes[31] % 64 + 64]
  {
    hide And, Or;
    Low7(bytes[31]);
    OrTop(bytes[31] % 128, 6);
    assert Two(6) == 64;
    CutLow(bytes[0]);
  }

  // The number of a first byte, 30 bytes and a last one.
  lemma Framed(first: nat, mid: seq<nat>, last: nat)
    requires |mid| == 30
    ensures LittleEndian([first] + mid + [last]) == first + 256 * LittleEndian(mid) + last * Two(248)
  {
    LittleEndianSnoc([first] + mid, last);
    assert ([first] + mid)[1..] == mid;
  }

  lemma ClampedSum(first: nat, mid: nat, last: nat, v: nat)
    requires first < 256 && last < 256 && mid < v
    ensures var w := 256 * v;
            var n, scalar := first + 256 * mid + last * w, first - first % 8 + 256 * mid + (last % 64 + 64) * w;
            scalar == 64 * w + n % (64 * w) - n % 8 && scalar % 8 == 0 && 64 * w <= scalar < 128 * w
  {
    SplitLast(last, v);
    ClampedLow(first, 32 * mid, 32 * (last % 64 * v), 32 * (64 * v), last / 64, last / 64 * (64 * (256 * v)), 32 * (last * v) - 32 * (last % 64 * v));
  }

  // With the summands named, and all of them but the first multiples of eight.
  lemma ClampedLow(first: nat, m: nat, x: nat, t: nat, q: nat, y: nat, z: int)
    requires first + 8 * m + 8 * x < 8 * t && y == q * (8 * t) && y == 8 * z
    ensures var n, scalar := first + 8 * m + 8 * x + y, first - first % 8 + 8 * m + 8 * x + 8 * t;
            scalar == 8 * t + n % (8 * t) - n % 8 && scalar % 8 == 0 && 8 * t <= scalar < 16 * t
  {
    DivModUnique(first + 8 * m + 8 * x + y, q, first + 8 * m + 8 * x, 8 * t);
    LowBits(first, m + x + z);
    LowBits(first - first % 8, m + x + t);
  }

  lemma SplitLast(last: nat, v: nat)
    ensures last * (256 * v) == 256 * (last % 64 * v) + last / 64 * (64 * (256 * v))
    ensures last * (256 * v) == 8 * (32 * (last * v))
    ensures (last % 64 + 64) * (256 * v) == 256 * (last % 64 * v) + 64 * (256 * v)
    ensures last % 64 * v <= 63 * v
  {
    var q, r := last / 64, last % 64;
    assert (64 * q + r) * v == 64 * (q * v) + r * v;
    assert q * (64 * (256 * v)) == 16384 * (q * v);
    MulMono(r, 63, v);
  }

  lemma LowBits(first: int, q: int)
    ensures (first + 8 * q) % 8 == first % 8
  {
  }

  lemma CutLow(b: nat)
    requires b < 256
    ensures And(b, 248) == b - b % 8
  {
    hide And;
    FiveBits(b / 8);
    AndDouble(b / 4, 31);
    AndDouble(b / 2, 62);
    AndDouble(b, 124);
  }

  lemma FiveBits(x: nat)
    requires x < 32
    ensures And(x, 31) == x
  {
    hide And;
    AndLow(x, 5);
    assert Two(5) == 32;
  }

  lemma AndDouble(a: int, b: nat)
    ensures And(a, 2 * b) == 2 * And(a / 2, b)
  {
  }

  lemma {:induction false} OrTop(a: nat, j: nat)
    requires a < 2 * Two(j)
    ensures Or(a, Two(j)) == a % Two(j) + Two(j)
    decreases j
  {
    hide Or;
    if j == 0 {
      OrOne(a);
    } else {
      OrTop(a / 2, j - 1);
      OrTopStep(a, Two(j - 1));
    }
  }

  lemma OrOne(a: nat)
    requires a < 2
    ensures Or(a, 1) == 1
  {
  }

  lemma OrTopStep(a: nat, h: nat)
    requires h > 0 && Or(a / 2, h) == (a / 2) % h + h
    ensures Or(a, 2 * h) == a % (2 * h) + 2 * h
  {
    OrEven(a, h);
    RemainderByDoubling(a, h);
  }

  lemma OrEven(a: nat, h: nat)
    requires h > 0
    ensures Or(a, 2 * h) == a % 2 + 2 * Or(a / 2, h)
  {
    hide Or;
    OrNext(a, 2 * h);
    assert 2 * h / 2 == h && 2 * h % 2 == 0;
  }

  lemma OrNext(a: nat, b: nat)
    requires b > 0
    ensures Or(a, b) == (if a % 2 == 1 then 1 else b % 2) + 2 * Or(a / 2, b / 2)
  {
  }

  // decodeUCoordinate for 255 bits: the top bit of the last byte is ignored.
  function DecodeCoordinate(bytes: seq<nat>): nat
    requires |bytes| == 32
  {
    LittleEndian(bytes[..31] + [And(bytes[31], 127)])
  }

  lemma LastByte(bytes: seq<nat>)
    requires |bytes| == 32 && forall k :: 0 <= k < 32 ==> bytes[k] < 256
    ensures LittleEndian(bytes) == DecodeCoordinate(bytes) + (bytes[31] / 128) * TOP
    ensures DecodeCoordinate(bytes) < TOP
  {
    hide LittleEndian, Two;
    var low, b := bytes[..31], bytes[31];
    Two248();
    assert bytes == low + [b];
    LittleEndianSnoc(low, b);
    LittleEndianSnoc(low, And(b, 127));
    LittleEndianBound(low);
    Low7(b);
    assert b == (b / 128) * 128 + b % 128;
    TopBit(b, b / 128, b % 128, Two(248));
  }

  lemma TopBit(b: int, q: int, r: int, w: int)
    requires b == q * 128 + r && 0 <= r < 128 && w * 128 == TOP
    ensures b * w == r * w + q * TOP && r * w <= TOP - w
  {
    assert (q * 128 + r) * w == q * (w * 128) + r * w;
    MulMono(r, 127, w);
  }

  lemma Low7(b: nat)
    ensures And(b, 127) == b % 128
  {
    AndLow(b, 7);
    assert Two(7) == 128;
  }

  lemma Two248()
    ensures Two(248) * 128 == TOP
  {
    Two124();
    TwoAdd(124, 124);
  }

  lemma Two124()
    ensures Two(124) == 0x1000_0000_0000_0000_0000_0000_0000_0000
  {
    Two62();
    TwoAdd(62, 62);
  }

  lemma Two62()
    ensures Two(62) == 0x4000_0000_0000_0000
  {
    hide Two;
    Two8();
    TwoAdd(8, 8);
    TwoAdd(8, 7);
    TwoAdd(16, 15);
    TwoAdd(31, 31);
  }

  lemma Two8()
    ensures Two(8) == 256 && Two(7) == 128
  {
  }

  // Reading all 256 bits, as eval does, gives the coordinate that RFC 7748 decodes exactly when the top bit is clear.
  lemma UnmaskedCoordinate(bytes: seq<nat>)
    requires |bytes| == 32 && forall k :: 0 <= k < 32 ==> bytes[k] < 256
    ensures LittleEndian(bytes) % P == DecodeCoordinate(bytes) % P <==> bytes[31] < 128
    ensures bytes[31] < 128 <==> LittleEndian(bytes) < TOP
  {
    hide LittleEndian, DecodeCoordinate;
    LastByte(bytes);
    assert bytes[31] / 128 == 0 || bytes[31] / 128 == 1;
  }

  // What not masking the top bit amounts to: a set bit adds 2^255, which is 19 modulo p, to the coordinate.
  lemma UnmaskedResult(k: int, bytes: seq<nat>)
    requires |bytes| == 32 && forall i :: 0 <= i < 32 ==> bytes[i] < 256
    ensures bytes[31] < 128 ==> LittleEndian(bytes) + 19 < 2 * TOP
    ensures X25519(k, LittleEndian(bytes) % P) == X25519(k, DecodeCoordinate(bytes) + 19 * (bytes[31] / 128))
  {
    hide LittleEndian, DecodeCoordinate, X25519;
    LastByte(bytes);
    var q, u := bytes[31] / 128, DecodeCoordinate(bytes) + 19 * (bytes[31] / 128);
    assert LittleEndian(bytes) == u + q * P;
    ModEq(LittleEndian(bytes), u, q, P);
    X25519Reduces(k, u);
  }

  // z^n is the inverse of z modulo m where z^(n + 1) is 1. Fermat's theorem says the latter for m = p and n = p - 2.
  lemma PowerIsInverse(z: int, n: nat, m: int)
    requires m > 0 && Pow(z, n + 1) % m == 1
    ensures (z * (Pow(z, n) % m)) % m == 1
  {
    hide Pow;
    PowerStep(z, n);
    ModMul(z, Pow(z, n), m);
  }

  lemma PowerStep(z: int, n: nat)
    ensures Pow(z, n + 1) == z * Pow(z, n)
  {
  }

  // The result of X25519 is the affine coordinate of the ladder's first point.
  lemma ResultIsAffine(k: int, u: int)
    requires Pow(Ladder(k, u).z2, P - 1) % P == 1
    ensures FMul(X25519(k, u), Ladder(k, u).z2) == Ladder(k, u).x2 % P
  {
    hide Pow, Ladder;
    var x, z := Ladder(k, u).x2, Ladder(k, u).z2;
    var w := Pow(z, P - 2) % P;
    PowerIsInverse(z, P - 2, P);
    calc {
      FMul(FMul(x, w), z);
      { ModMul(x * w, z, P); }
      ((x * w) * z) % P;
      { assert (x * w) * z == x * (z * w); }
      (x * (z * w)) % P;
      { ModMul(x, z * w, P); }
      (x * FMul(z, w)) % P;
      x % P;
    }
  }
}
