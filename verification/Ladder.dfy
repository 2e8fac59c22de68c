/**
  X25519 as RFC 7748 gives it: the field of 2^255 - 19 elements (section 4.1) and the ladder (section 5).

  This is the reference that the limb code is proved against. It works on integers only.
 */
module Rfc7748 {
  import opened ModArith
  import opened JavaInt

  const TOP := 0x8000_0000_0000_0000_0000_0000_0000_0000_0000_0000_0000_0000_0000_0000_0000_0000
  const P := TOP - 19
  const A24 := 121665

  function FAdd(x: int, y: int): int { (x + y) % P }

  function FSub(x: int, y: int): int { (x - y) % P }

  function FMul(x: int, y: int): int { (x * y) % P }

  lemma FMulCommutes(x: int, y: int)
    ensures FMul(x, y) == FMul(y, x)
  {
  }

  lemma FAddCommutes(x: int, y: int)
    ensures FAdd(x, y) == FAdd(y, x)
  {
  }

  datatype Points = Points(x2: int, z2: int, x3: int, z3: int)

  // The body of the loop in section 5, on the coordinate u of the input point.
  function Step(u: int, s: Points): Points {
    var a := FAdd(s.x2, s.z2);
    var aa := FMul(a, a);
    var b := FSub(s.x2, s.z2);
    var bb := FMul(b, b);
    var e := FSub(aa, bb);
    var c := FAdd(s.x3, s.z3);
    var d := FSub(s.x3, s.z3);
    var da := FMul(d, a);
    var cb := FMul(c, b);
    var sum, diff := FAdd(da, cb), FSub(da, cb);
    Points(FMul(aa, bb), FMul(e, FAdd(aa, FMul(A24, e))), FMul(sum, sum), FMul(u, FMul(diff, diff)))
  }

  function Swap(swap: int, s: Points): Points {
    if swap == 1 then Points(s.x3, s.z3, s.x2, s.z2) else s
  }

  datatype State = State(points: Points, swap: int)

  // The loop's variables after bits 254 .. 255 - n of the scalar.
  function Loop(k: int, u: int, n: nat): State
    requires n <= 255
    decreases n
  {
    if n == 0 then State(Points(1, 0, u, 1), 0)
    else
      var prev := Loop(k, u, n - 1);
      var bit := Bit(k, 255 - n);
      State(Step(u, Swap((prev.swap + bit) % 2, prev.points)), bit)
  }

  lemma LoopStart(k: int, u: int)
    ensures Loop(k, u, 0) == State(Points(1, 0, u, 1), 0)
  {
  }

  lemma LoopNext(k: int, u: int, n: nat)
    requires 1 <= n <= 255
    ensures var prev, bit := Loop(k, u, n - 1), Bit(k, 255 - n);
            Loop(k, u, n) == State(Step(u, Swap((prev.swap + bit) % 2, prev.points)), bit)
  {
    hide Step, Bit, Swap;
  }

  function Ladder(k: int, u: int): Points {
    var last := Loop(k, u, 255);
    Swap(last.swap, last.points)
  }

  // The result of the function X25519 on a decoded scalar and a decoded coordinate.
  function X25519(k: int, u: int): int {
    FMul(Ladder(k, u).x2, Pow(Ladder(k, u).z2, P - 2) % P)
  }

  // Little-endian bytes to an integer.
  function LittleEndian(bytes: seq<nat>): nat {
    if |bytes| == 0 then 0 else bytes[0] + 256 * LittleEndian(bytes[1..])
  }

  lemma {:induction false} LittleEndianSnoc(bytes: seq<nat>, b: nat)
    ensures LittleEndian(bytes + [b]) == LittleEndian(bytes) + b * Two(8 * |bytes|)
  {
    if |bytes| == 0 {
    } else {
      LittleEndianSnoc(bytes[1..], b);
      assert (bytes + [b])[1..] == bytes[1..] + [b];
      assert Two(8) == 256;
      TwoAdd(8, 8 * |bytes[1..]|);
      assert b * (256 * Two(8 * |bytes[1..]|)) == 256 * (b * Two(8 * |bytes[1..]|));
    }
  }

  // Bytes that are the successive low bytes of n make up n again.
  lemma {:induction false} LittleEndianDigits(bytes: seq<nat>, n: nat)
    requires n < Two(8 * |bytes|)
    requires forall i :: 0 <= i < |bytes| ==> bytes[i] == (n / Two(8 * i)) % 256
    ensures LittleEndian(bytes) == n
    decreases |bytes|
  {
    if |bytes| > 0 {
      var rest := bytes[1..];
      assert Two(8) == 256;
      TwoAdd(8, 8 * |rest|);
      assert n / 256 < Two(8 * |rest|);
      forall i | 0 <= i < |rest|
        ensures rest[i] == (n / 256 / Two(8 * i)) % 256
      {
        assert rest[i] == bytes[i + 1];
        TwoAdd(8, 8 * i);
        DivDiv(n, 256, Two(8 * i));
      }
      LittleEndianDigits(rest, n / 256);
      assert bytes[0] == (n / Two(0)) % 256;
    }
  }

  // Bytes are determined by the integer they make up.
  lemma {:induction false} LittleEndianInjective(a: seq<nat>, b: seq<nat>)
    requires |a| == |b| && forall i :: 0 <= i < |a| ==> a[i] < 256 && b[i] < 256
    requires LittleEndian(a) == LittleEndian(b)
    ensures a == b
  {
    if |a| > 0 {
      LittleEndianInjective(a[1..], b[1..]);
      assert a == [a[0]] + a[1..] && b == [b[0]] + b[1..];
    }
  }

  lemma {:induction false} LittleEndianBound(bytes: seq<nat>)
    requires forall k :: 0 <= k < |bytes| ==> bytes[k] < 256
    ensures LittleEndian(bytes) < Two(8 * |bytes|)
  {
    if |bytes| > 0 {
      LittleEndianBound(bytes[1..]);
      assert Two(8) == 256;
      TwoAdd(8, 8 * |bytes[1..]|);
    }
  }

  // decodeScalar25519 before the bytes are put together.
  function Clamp(bytes: seq<nat>): (r: seq<nat>)
    requires |bytes| == 32
  {
    hide And, Or;
    OrNat(And(bytes[31], 127), 64);
    [And(bytes[0], 248)] + bytes[1..31] + [Or(And(bytes[31], 127), 64)]
  }

  // The byte of the scalar that the ladder's loop looks at, from signed bytes.
  function ScalarByte(s: seq<int8>, i: nat): int
    requires |s| == 32 && i < 32
  {
    if i == 31 then Or(s[31] as int, 0x40)
    else if i == 0 then And(s[0] as int, 0xF8)
    else s[i] as int
  }

  function UnsignedBytes(s: seq<int8>): (r: seq<nat>)
    ensures |r| == |s| && forall i :: 0 <= i < |s| ==> r[i] == Unsigned(s[i])
  {
    seq(|s|, i requires 0 <= i < |s| => Unsigned(s[i]))
  }

  function Scalar(s: seq<int8>): nat
    requires |s| == 32
  {
    LittleEndian(Clamp(UnsignedBytes(s)))
  }

  // Reading the clamped scalar's bits from bytes adjusted one at a time is reading them from the whole number.
  lemma ScalarBit(s: seq<int8>, i: nat, j: nat)
    requires |s| == 32 && i < 32 && j < 8 && (i == 31 ==> j < 7)
    ensures Bit(ScalarByte(s, i), j) == Bit(Scalar(s), 8 * i + j)
  {
    hide Bit, And, Or;
    var bytes := UnsignedBytes(s);
    var b, low := s[i] as int, Unsigned(s[i]);
    BitAbove(low, b / 256, j);
    if i == 31 {
      BitOr(b, 0x40, j);
      BitAnd(low, 127, j);
      BitOr(And(low, 127), 64, j);
      assert Two(7) == 128;
      Ones(7, j);
    } else if i == 0 {
      BitAnd(b, 0xF8, j);
      BitAnd(low, 248, j);
    }
    assert Two(8) == 256;
    OrBound(And(bytes[31], 127), 64, 8);
    BytesBit(Clamp(bytes), i, j);
  }

  lemma ScalarByteRange(s: seq<int8>, i: nat)
    requires |s| == 32 && i < 32
    ensures -0x100 <= ScalarByte(s, i) < 0x100
    ensures i == 31 ==> ScalarByte(s, i) == Or(s[31] as int, 0x40)
    ensures i == 0 ==> ScalarByte(s, i) == And(s[0] as int, 0xF8)
    ensures 0 < i < 31 ==> ScalarByte(s, i) == s[i] as int
  {
    if i == 31 {
      OrRange(s[31] as int, 0x40, 8);
    }
  }

  lemma {:induction false} OrRange(a: int, b: nat, k: nat)
    requires 0 <= a + Two(k) && a < Two(k) && b < Two(k)
    ensures 0 <= Or(a, b) + Two(k) && Or(a, b) < Two(k)
    decreases k
  {
    if b != 0 && k > 0 {
      OrRange(a / 2, b / 2, k - 1);
    }
  }

  // What stands from bit 8 up does not reach the eight lowest bits.
  lemma BitAbove(low: int, high: int, j: nat)
    requires j < 8
    ensures Bit(low + 256 * high, j) == Bit(low, j)
  {
    var t, u := Two(j), Two(8 - j - 1);
    assert 2 * t * u == 256 by {
      TwoAdd(j + 1, 7 - j);
      assert Two(8) == 256;
    }
    Above(low, high, t, u);
  }

  lemma Above(low: int, high: int, t: nat, u: nat)
    requires t > 0 && 2 * t * u == 256
    ensures ((low + 256 * high) / t) % 2 == (low / t) % 2
  {
    var q := low / t + 2 * (u * high);
    assert 2 * t * u * high == (2 * (u * high)) * t;
    DivModUnique(low + 256 * high, q, low % t, t);
  }

  lemma {:induction false} Ones(n: nat, j: nat)
    requires j < n
    ensures Bit(Two(n) - 1, j) == 1
    decreases n
  {
    BitStep(1, Two(n - 1) - 1, j);
    if j > 0 {
      Ones(n - 1, j - 1);
    }
  }

  lemma {:induction false} OrBound(a: nat, b: nat, k: nat)
    requires a < Two(k) && b < Two(k)
    ensures 0 <= Or(a, b) < Two(k)
    decreases k
  {
    if b != 0 && k > 0 {
      OrBound(a / 2, b / 2, k - 1);
    }
  }

  // Bit j of byte i is bit 8 * i + j of the number.
  lemma {:induction false} BytesBit(bytes: seq<nat>, i: nat, j: nat)
    requires i < |bytes| && j < 8
    requires forall k :: 0 <= k < |bytes| ==> bytes[k] < 256
    ensures Bit(LittleEndian(bytes), 8 * i + j) == Bit(bytes[i], j)
    decreases i
  {
    hide Bit;
    var n, rest := LittleEndian(bytes), LittleEndian(bytes[1..]);
    assert n == bytes[0] + 256 * rest;
    if i == 0 {
      BitAbove(bytes[0], rest, j);
    } else {
      BytesBit(bytes[1..], i - 1, j);
      BitDown(n, 8 * (i - 1) + j);
      assert n / 256 == rest;
    }
  }

  lemma BitDown(n: nat, k: nat)
    ensures Bit(n, 8 + k) == Bit(n / 256, k)
  {
    assert Two(8) == 256;
    TwoAdd(8, k);
    DivDiv(n, 256, Two(k));
  }
}
