/**
  The limb arithmetic of Curve25519.java: numbers modulo 2^255 - 19 on ten 26-bit limbs held in Java ints, the
  Montgomery ladder over them, and the function X25519 that eval writes as 32 little-endian bytes.

  Java's int and long are newtypes, so every operation below is also shown to stay within its width. Methods take
  any limbs below 2^26; what they say about values holds where the inputs are canonical, that is below p.
 */
module Curve25519Arithmetic {
  import opened ModArith
  import opened JavaInt
  import opened Rfc7748
  import opened LadderLaws
  import opened Limbs

  // What reduceQuick makes of the value v.
  function QuickReduce(v: int): int {
    if ((v + 19) / TOP) % 2 == 1 then (v + 19) % TOP else v
  }

  // Selecting with a mask of all ones or all zeros.
  lemma Select(mask: int, x: nat, y: nat)
    requires mask == 0 || mask == -1
    ensures Or(And(-1 - mask, x), And(mask, y)) == if mask == 0 then x else y
  {
    AndMask(x);
    AndMask(y);
    OrZero(x);
    OrZero(y);
  }

  // The square of the largest limb, 2^26 - 1.
  const MAX_PRODUCT: int64 := 0xF_FFFF_F800_0001

  ghost predicate Sums(s: seq<int64>, terms: int64) {
    forall k :: 0 <= k < |s| ==> 0 <= s[k] as int <= terms as int * MAX_PRODUCT as int
  }

  lemma ProductBound(a: int64, b: int64)
    requires 0 <= a < 0x400_0000 && 0 <= b < 0x400_0000
    ensures 0 <= a as int * b as int <= MAX_PRODUCT as int
  {
    FactorBound(a as int, b as int, 0x3FF_FFFF);
  }

  lemma FactorBound(a: int, b: int, max: int)
    requires 0 <= a <= max && 0 <= b <= max
    ensures 0 <= a * b <= max * max
  {
    MulMono(a, max, b);
    MulMono(b, max, max);
  }

  class Curve25519 {
    const x_1: array<int32>
    const x_2: array<int32>
    const x_3: array<int32>
    const z_2: array<int32>
    const z_3: array<int32>
    const A: array<int32>
    const B: array<int32>
    const C: array<int32>
    const D: array<int32>
    const E: array<int32>
    const AA: array<int32>
    const BB: array<int32>
    const DA: array<int32>
    const CB: array<int32>
    const t1: array<int64>
    const t2: array<int32>

    // The sixteen buffers are different arrays.
    ghost predicate Allocated() {
      && x_1.Length == x_2.Length == x_3.Length == z_2.Length == z_3.Length == 10
      && A.Length == B.Length == C.Length == D.Length == E.Length == 10
      && AA.Length == BB.Length == DA.Length == CB.Length == 10
      && x_1 !in {x_2, x_3, z_2, z_3, A, B, C, D, E, AA, BB, DA, CB, t2}
      && x_2 !in {x_3, z_2, z_3, A, B, C, D, E, AA, BB, DA, CB, t2}
      && x_3 !in {z_2, z_3, A, B, C, D, E, AA, BB, DA, CB, t2}
      && z_2 !in {z_3, A, B, C, D, E, AA, BB, DA, CB, t2}
      && z_3 !in {A, B, C, D, E, AA, BB, DA, CB, t2}
      && A !in {B, C, D, E, AA, BB, DA, CB, t2}
      && B !in {C, D, E, AA, BB, DA, CB, t2}
      && C !in {D, E, AA, BB, DA, CB, t2}
      && D !in {E, AA, BB, DA, CB, t2}
      && E !in {AA, BB, DA, CB, t2}
      && AA !in {BB, DA, CB, t2}
      && BB !in {DA, CB, t2}
      && DA !in {CB, t2}
      && CB != t2
    }

    constructor ()
      ensures Valid() && Allocated()
      ensures fresh(x_1) && fresh(x_2) && fresh(x_3) && fresh(z_2) && fresh(z_3) && fresh(A) && fresh(B) && fresh(C)
      ensures fresh(D) && fresh(E) && fresh(AA) && fresh(BB) && fresh(DA) && fresh(CB) && fresh(t2) && fresh(t1)
    {
      x_1 := new int32[10];
      x_2 := new int32[10];
      x_3 := new int32[10];
      z_2 := new int32[10];
      z_3 := new int32[10];
      A := new int32[10];
      B := new int32[10];
      C := new int32[10];
      D := new int32[10];
      E := new int32[10];
      AA := new int32[10];
      BB := new int32[10];
      DA := new int32[10];
      CB := new int32[10];
      t1 := new int64[20](i => 0);
      t2 := new int32[20];
    }

    // The last of the twenty words of t1 is never written, and it is added to every product.
    ghost predicate Valid()
      reads t1
    {
      t1.Length == 20 && t2.Length == 20 && t1[19] == 0
    }

    // The first half of mul: the sums of limb products. No sum leaves the range of a long.
    method Products(x: array<int32>, y: array<int32>)
      requires Valid() && x.Length == y.Length == 10
      requires Bounded(x[..]) && Bounded(y[..])
      modifies t1
      ensures Valid() && Sums(t1[..], 10)
      ensures LongVal(t1[..]) == Val(x[..]) * Val(y[..])
    {
      hide Val, LongVal, Weight;
      ValEmpty();
      ghost var xs, ys := x[..], y[..];
      var v := x[0] as int64;
      assert t1[..0] == [] && ys[..0] == [];
      for i := 0 to 10
        invariant x[..] == xs && y[..] == ys && t1[19] == 0
        invariant Sums(t1[..i], 1)
        invariant LongVal(t1[..i]) == v as int * Val(ys[..i])
      {
        ghost var done := t1[..i];
        assert 0 <= xs[0] < 0x400_0000 && 0 <= ys[i] < 0x400_0000;
        ProductBound(v, ys[i] as int64);
        t1[i] := v * (y[i] as int64);
        assert t1[..i + 1] == done + [t1[i]];
        LongSnoc(done, t1[i]);
        ValPrefix(ys, i);
        Row(v as int, Val(ys[..i]), ys[i] as int, Weight(i));
      }
      assert ys[..10] == ys;
      ValPrefix(xs, 0);
      assert xs[..0] == [];
      for i := 1 to 10
        invariant x[..] == xs && y[..] == ys && t1[19] == 0
        invariant Sums(t1[..9 + i], i as int64)
        invariant LongVal(t1[..9 + i]) == Val(xs[..i]) * Val(ys)
      {
        AddRow(x, y, i);
        ValPrefix(xs, i);
        Row(Val(ys), Val(xs[..i]), xs[i] as int, Weight(i));
      }
      assert xs[..10] == xs && t1[..20] == t1[..];
      LongPrefix(t1[..], 19);
      assert t1[..][..19] == t1[..19];
    }

    // One pass of the outer loop of mul.
    method AddRow(x: array<int32>, y: array<int32>, i: int)
      requires Valid() && x.Length == y.Length == 10 && 1 <= i < 10
      requires Bounded(x[..]) && Bounded(y[..])
      requires Sums(t1[..9 + i], i as int64)
      modifies t1
      ensures Valid() && Sums(t1[..10 + i], i as int64 + 1)
      ensures LongVal(t1[..10 + i]) == old(LongVal(t1[..9 + i])) + x[i] as int * Weight(i) * Val(y[..])
    {
      hide Val, LongVal, Weight;
      ValEmpty();
      ghost var ys, before := y[..], LongVal(t1[..9 + i]);
      var v := x[i] as int64;
      assert 0 <= x[..][i] < 0x400_0000;
      assert ys[..0] == [];
      for j := 0 to 9
        invariant y[..] == ys && t1[19] == 0
        invariant Sums(t1[..i + j], i as int64 + 1)
        invariant forall k :: i + j <= k < 9 + i ==> 0 <= t1[k] as int <= i * MAX_PRODUCT as int
        invariant LongVal(t1[..9 + i]) == before + v as int * Weight(i) * Val(ys[..j])
      {
        ghost var done := t1[..9 + i];
        assert 0 <= ys[j] < 0x400_0000;
        ProductBound(v, ys[j] as int64);
        t1[i + j] := t1[i + j] + v * (y[j] as int64);
        assert t1[..9 + i] == done[i + j := t1[i + j]];
        LongUpdate(done, i + j, t1[i + j]);
        ValPrefix(ys, j);
        WeightAdd(i, j);
        RowStep(v as int, Val(ys[..j]), ys[j] as int, Weight(i), Weight(j));
      }
      ghost var done := t1[..9 + i];
      assert 0 <= ys[9] < 0x400_0000;
      ProductBound(v, ys[9] as int64);
      t1[i + 9] := v * (y[9] as int64);
      assert t1[..10 + i] == done + [t1[i + 9]];
      LongSnoc(done, t1[i + 9]);
      ValPrefix(ys, 9);
      assert ys[..10] == ys;
      WeightAdd(i, 9);
      RowStep(v as int, Val(ys[..9]), ys[9] as int, Weight(i), Weight(9));
    }

    // The second half of mul: the sums are carried into twenty 26-bit words with nothing left over.
    method CarryProduct(ghost product: int)
      requires Valid() && Sums(t1[..], 10)
      requires LongVal(t1[..]) == product && 0 <= product < Weight(20)
      modifies t2
      ensures Bounded(t2[..]) && Val(t2[..]) == product
    {
      hide Val, LongVal, Weight;
      ValEmpty();
      ghost var sums := t1[..];
      var v := t1[0];
      t2[0] := (v % 0x400_0000) as int32;
      assert sums[..0] == [];
      LongPrefix(sums, 0);
      CarryStep([], t2[0], 0, v as int);
      assert t2[..1] == [] + [t2[0]];
      for i := 1 to 20
        invariant t1[..] == sums
        invariant Bounded(t2[..i])
        invariant 0 <= v as int <= 11 * MAX_PRODUCT as int
        invariant Val(t2[..i]) + (v as int / LIMB) * Weight(i) == LongVal(sums[..i])
      {
        ghost var done := t2[..i];
        assert t1[i] == sums[i] && 0 <= sums[i] as int <= 10 * MAX_PRODUCT as int;
        CarryStep(done, ((v / 0x400_0000 + t1[i]) % 0x400_0000) as int32, v as int / LIMB, t1[i] as int);
        LongPrefix(sums, i);
        v := v / 0x400_0000 + t1[i];
        t2[i] := (v % 0x400_0000) as int32;
        assert t2[..i + 1] == done + [t2[i]];
      }
      assert t2[..20] == t2[..] && sums[..20] == sums;
      ValBounds(t2[..]);
      NoCarry(Val(t2[..]), v as int / LIMB, Weight(20), product);
    }

    method Mul(result: array<int32>, x: array<int32>, y: array<int32>)
      requires Valid() && result.Length == x.Length == y.Length == 10
      requires result != t2 && x != t2 && y != t2
      requires Bounded(x[..]) && Bounded(y[..])
      modifies result, t1, t2
      ensures Valid() && Bounded(result[..])
      ensures old(Canonical(x[..]) && Canonical(y[..]))
          ==> Canonical(result[..]) && Val(result[..]) == FMul(old(Val(x[..])), old(Val(y[..])))
    {
      hide Val, LongVal, Weight;
      ghost var u, v := Val(x[..]), Val(y[..]);
      ValBounds(x[..]);
      ValBounds(y[..]);
      ProductRange(u, v);
      Products(x, y);
      CarryProduct(u * v);
      assert t2[..20] == t2[..];
      Reduce(result, t2, 10);
    }

    method Square(result: array<int32>, x: array<int32>)
      requires Valid() && result.Length == x.Length == 10 && result != t2 && x != t2
      requires Bounded(x[..])
      modifies result, t1, t2
      ensures Valid() && Bounded(result[..])
      ensures old(Canonical(x[..]))
          ==> Canonical(result[..]) && Val(result[..]) == FMul(old(Val(x[..])), old(Val(x[..])))
    {
      Mul(result, x, x);
    }

    method ReduceQuick(x: array<int32>)
      requires Valid() && x.Length == 10 && x != t2
      requires Bounded(x[..])
      modifies x, t2
      ensures Valid() && Bounded(x[..])
      ensures Val(x[..]) == QuickReduce(old(Val(x[..])))
    {
      hide Val, Weight, And, Or;
      ghost var v := x[..];
      ValEmpty();
      var carry: int32 := 19;
      assert t2[..0] == [] && v[..0] == [];
      for index := 0 to 10
        invariant x[..] == v
        invariant 0 <= carry <= 19
        invariant Bounded(t2[..index])
        invariant Val(t2[..index]) + carry as int * Weight(index) == 19 + Val(v[..index])
      {
        CarryStep(t2[..index], (carry + x[index]) % 0x400_0000, carry as int, x[index] as int);
        ValPrefix(v, index);
        ghost var done := t2[..index];
        carry := carry + x[index];
        t2[index] := carry % 0x400_0000;
        assert t2[..index + 1] == done + [t2[index]];
        carry := carry / 0x400_0000;
      }
      ghost var sum := t2[..10];
      assert v[..10] == v;
      QuickReduceCarry(Val(v), Val(sum), carry as int);
      TopSplit(sum);

      var mask := -((t2[9] / 0x20_0000) % 2);
      var nmask := -1 - mask;
      t2[9] := t2[9] % 0x20_0000;
      ghost var reduced := t2[..10];
      assert reduced == sum[9 := sum[9] % 0x20_0000];
      for index := 0 to 10
        invariant t2[..10] == reduced
        invariant forall k :: index <= k < 10 ==> x[k] == v[k]
        invariant forall k :: 0 <= k < index ==> x[k] == if mask == 0 then v[k] else reduced[k]
      {
        assert t2[index] == reduced[index];
        Select(mask as int, x[index] as int, t2[index] as int);
        x[index] := Or(And(nmask as int, x[index] as int), And(mask as int, t2[index] as int)) as int32;
      }
      assert x[..] == if mask == 0 then v else reduced;
    }

    // size is the number of limbs that x has above its low ten.
    method Reduce(result: array<int32>, x: array<int32>, size: int)
      requires Valid() && 0 <= size <= 10
      requires result.Length == 10 && x.Length == 20 && result != t2 && result != x
      requires Bounded(x[..10 + size])
      modifies result, x, t2
      ensures Valid() && Bounded(result[..])
      ensures var v := old(Val(x[..10 + size]));
              v < TOP * TOP && v < TOP * Weight(size) ==> Val(result[..]) == v % P
    {
      hide Val, Weight;
      ghost var input := x[..10 + size];
      ghost var low, high := Low(input), input[10..];
      ReduceSplit(input, low, high);
      ghost var digits, limb, carry := FoldHigh(x, size);
      ghost var once := x[..10];
      ghost var carry' := FoldTop(result, x);
      ghost var twice := result[..];
      ValBounds(high);
      ValBounds(digits);
      ValBounds(once);
      ValBounds(twice);
      FoldValue(Val(input), Val(low), input[9] as int / 0x20_0000 + 32 * Val(high), Weight(size), Val(digits), limb,
                Weight(10), Val(once), carry, Val(once) / TOP, Val(twice), carry');
      ReduceQuick(result);
    }

    // The first half of reduce: nineteen times the digits above bit 255 are added to the bits below it.
    // The digits, and the limb and carry that the source drops, are returned for the specification.
    method FoldHigh(x: array<int32>, size: int) returns (ghost digits: seq<int32>, ghost lostLimb: int, ghost lostCarry: int)
      requires x.Length == 20 && 0 <= size <= 10
      requires Bounded(x[..10 + size])
      modifies x
      ensures |digits| == size && Bounded(digits) && Bounded(x[..10])
      ensures lostLimb >= 0 && lostCarry >= 0
      ensures var input := old(x[..10 + size]);
              && Val(digits) + lostLimb * Weight(size) == input[9] as int / 0x20_0000 + 32 * Val(input[10..])
              && Val(x[..10]) + lostCarry * Weight(10) == Val(Low(input)) + 19 * Val(digits)
    {
      hide Val, Weight;
      ghost var input := x[..10 + size];
      ghost var top, low, high := input[9] as int / 0x20_0000, Low(input), input[10..];
      var limb: int32 := x[9] / 0x20_0000;
      x[9] := x[9] % 0x20_0000;
      var carry: int32;
      digits, limb, carry := FoldWords(x, size, limb, low, high);
      lostLimb, lostCarry := limb as int, carry as int;
      if size < 10 {
        carry := CarryOn(x, size, carry, low, 19 * Val(digits));
        lostCarry := carry as int;
      }
      assert low[..10] == low;
    }

    // Reduce's first loop, as far as there are high limbs.
    method FoldWords(x: array<int32>, size: int, top: int32, ghost low: seq<int32>, ghost high: seq<int32>)
        returns (ghost digits: seq<int32>, limb: int32, carry: int32)
      requires x.Length == 20 && 0 <= size <= 10 && 0 <= top < 32
      requires |low| == 10 && |high| == size && Bounded(low) && Bounded(high)
      requires forall k :: 0 <= k < 10 ==> x[k] == low[k]
      requires forall k :: 0 <= k < size ==> x[10 + k] == high[k]
      modifies x
      ensures |digits| == size && Bounded(digits) && Bounded(x[..size])
      ensures 0 <= limb < 32 && 0 <= carry <= 19
      ensures forall k :: size <= k < 10 ==> x[k] == low[k]
      ensures Val(digits) + limb as int * Weight(size) == top as int + 32 * Val(high)
      ensures Val(x[..size]) + carry as int * Weight(size) == Val(low[..size]) + 19 * Val(digits)
    {
      hide Val, Weight;
      ValEmpty();
      digits, limb, carry := [], top, 0;
      assert x[..0] == [] && low[..0] == [] && high[..0] == [];
      for index := 0 to size
        invariant |digits| == index && Bounded(digits) && Bounded(x[..index])
        invariant 0 <= limb < 32 && 0 <= carry <= 19
        invariant forall k :: index <= k < 10 ==> x[k] == low[k]
        invariant forall k :: 0 <= k < size ==> x[10 + k] == high[k]
        invariant Val(digits) + limb as int * Weight(index) == top as int + 32 * Val(high[..index])
        invariant Val(x[..index]) + carry as int * Weight(index) == Val(low[..index]) + 19 * Val(digits)
      {
        ghost var done := x[..index];
        assert x[10 + index] == high[index] && x[index] == low[index] && 0 <= high[index] < 0x400_0000;
        ReduceStep(done, digits, carry, limb, low, high, index, top as int);
        limb := limb + x[10 + index] * 32;
        ghost var digit := limb % 0x400_0000;
        carry := carry + (limb % 0x400_0000) * 19 + x[index];
        x[index] := carry % 0x400_0000;
        limb := limb / 0x400_0000;
        carry := carry / 0x400_0000;
        digits := digits + [digit];
        assert x[..index + 1] == done + [x[index]];
      }
      assert high[..size] == high;
    }

    // The rest of reduce's first loop over the low limbs, past the high ones.
    method CarryOn(x: array<int32>, size: int, carry: int32, ghost low: seq<int32>, ghost more: int) returns (carry': int32)
      requires x.Length == 20 && 0 <= size <= 10 && |low| == 10 && Bounded(low)
      requires 0 <= carry <= 19 && Bounded(x[..size])
      requires forall k :: size <= k < 10 ==> x[k] == low[k]
      requires Val(x[..size]) + carry as int * Weight(size) == Val(low[..size]) + more
      modifies x
      ensures carry' >= 0 && Bounded(x[..10]) && x[10..] == old(x[10..])
      ensures Val(x[..10]) + carry' as int * Weight(10) == Val(low[..10]) + more
    {
      hide Val, Weight;
      carry' := carry;
      for index := size to 10
        invariant Bounded(x[..index]) && x[10..] == old(x[10..])
        invariant 0 <= carry' <= 19
        invariant forall k :: index <= k < 10 ==> x[k] == low[k]
        invariant Val(x[..index]) + carry' as int * Weight(index) == Val(low[..index]) + more
      {
        ghost var done := x[..index];
        CarryStep(done, (carry' + x[index]) % 0x400_0000, carry' as int, x[index] as int);
        ValPrefix(low, index);
        carry' := carry' + x[index];
        x[index] := carry' % 0x400_0000;
        carry' := carry' / 0x400_0000;
        assert x[..index + 1] == done + [x[index]];
      }
    }

    // The second half of reduce: the few bits that are above bit 255 again are folded once more.
    method FoldTop(result: array<int32>, x: array<int32>) returns (ghost lostCarry: int)
      requires result.Length == 10 && x.Length == 20 && result != x
      requires Bounded(x[..10])
      modifies result, x
      ensures Bounded(result[..]) && lostCarry >= 0
      ensures var v := old(Val(x[..10]));
              Val(result[..]) + lostCarry * Weight(10) == v - v / TOP * TOP + v / TOP * 19
    {
      hide Val, Weight;
      ValEmpty();
      ghost var input, fold := x[..10], x[9] as int / 0x20_0000;
      TopSplit(input);
      var carry := (x[9] / 0x20_0000) * 19;
      x[9] := x[9] % 0x20_0000;
      ghost var low := x[..10];
      assert low == input[9 := input[9] % 0x20_0000];
      assert result[..0] == [] && low[..0] == [];
      for index := 0 to 10
        invariant x[..10] == low
        invariant Bounded(result[..index])
        invariant 0 <= carry <= 31 * 19
        invariant Val(result[..index]) + carry as int * Weight(index) == Val(low[..index]) + fold * 19
      {
        ghost var done := result[..index];
        assert x[index] == low[index];
        CarryStep(done, (carry + x[index]) % 0x400_0000, carry as int, x[index] as int);
        ValPrefix(low, index);
        carry := carry + x[index];
        result[index] := carry % 0x400_0000;
        carry := carry / 0x400_0000;
        assert result[..index + 1] == done + [result[index]];
      }
      assert result[..10] == result[..] && low[..10] == low;
      lostCarry := carry as int;
    }

    method MulA24(result: array<int32>, x: array<int32>)
      requires Valid() && result.Length == x.Length == 10 && result != t2 && x != t2
      requires Bounded(x[..])
      modifies result, t2
      ensures Valid() && Bounded(result[..])
      ensures old(Canonical(x[..])) ==> Canonical(result[..]) && Val(result[..]) == FMul(A24, old(Val(x[..])))
    {
      hide Val, Weight;
      ValBounds(x[..]);
      A24Range(Val(x[..]));
      ScaleByA24(x);
      Reduce(result, t2, 1);
    }

    // The loop of mulA24: the product fills eleven words.
    method ScaleByA24(x: array<int32>)
      requires Valid() && x.Length == 10 && x != t2
      requires Bounded(x[..])
      modifies t2
      ensures Bounded(t2[..11]) && Val(t2[..11]) == A24 * Val(x[..])
    {
      hide Val, Weight;
      ValEmpty();
      ghost var xs := x[..];
      var carry: int64 := 0;
      assert t2[..0] == [] && xs[..0] == [];
      for index := 0 to 10
        invariant x[..] == xs
        invariant Bounded(t2[..index])
        invariant 0 <= carry <= 121665
        invariant Val(t2[..index]) + carry as int * Weight(index) == A24 * Val(xs[..index])
      {
        ghost var done := t2[..index];
        assert x[index] == xs[index];
        A24Step(xs, done, index, carry);
        carry := carry + 121665 * (x[index] as int64);
        t2[index] := (carry % 0x400_0000) as int32;
        carry := carry / 0x400_0000;
        assert t2[..index + 1] == done + [t2[index]];
      }
      ghost var done := t2[..10];
      assert carry % 0x400_0000 == carry;
      t2[10] := (carry % 0x400_0000) as int32;
      assert t2[..11] == done + [t2[10]];
      ValSnoc(done, t2[10]);
      assert xs[..10] == xs;
    }

    method Add(result: array<int32>, x: array<int32>, y: array<int32>)
      requires Valid() && result.Length == x.Length == y.Length == 10 && result != t2 && x != t2 && y != t2
      requires Bounded(x[..]) && Bounded(y[..])
      modifies result, t2
      ensures Valid() && Bounded(result[..])
      ensures old(Canonical(x[..]) && Canonical(y[..]))
          ==> Canonical(result[..]) && Val(result[..]) == FAdd(old(Val(x[..])), old(Val(y[..])))
      ensures Val(result[..]) == Sum(old(Val(x[..])), old(Val(y[..])))
    {
      hide Val, Weight;
      ghost var u, v := Val(x[..]), Val(y[..]);
      ValBounds(x[..]);
      ValBounds(y[..]);
      var carry := AddLimbs(result, x, y);
      ValBounds(result[..]);
      AddValue(u, v, Val(result[..]), carry as int / LIMB);
      ReduceQuick(result);
    }

    // The loop of add, with the carry out of the top limb returned.
    static method AddLimbs(result: array<int32>, x: array<int32>, y: array<int32>) returns (carry: int32)
      requires result.Length == x.Length == y.Length == 10
      requires Bounded(x[..]) && Bounded(y[..])
      modifies result
      ensures Bounded(result[..]) && carry >= 0
      ensures Val(result[..]) + (carry as int / LIMB) * Weight(10) == old(Val(x[..])) + old(Val(y[..]))
    {
      hide Val, Weight;
      ValEmpty();
      ghost var xs, ys := x[..], y[..];
      assert 0 <= xs[0] < 0x400_0000 && 0 <= ys[0] < 0x400_0000;
      assert xs[..0] == [] && ys[..0] == [];
      ValPrefix(xs, 0);
      ValPrefix(ys, 0);
      carry := x[0] + y[0];
      CarryStep([], carry % 0x400_0000, 0, carry as int);
      result[0] := carry % 0x400_0000;
      assert result[..1] == [] + [result[0]];
      for index := 1 to 10
        invariant forall k :: index <= k < 10 ==> x[k] == xs[k] && y[k] == ys[k]
        invariant Bounded(result[..index])
        invariant 0 <= carry < 0x800_0000
        invariant Val(result[..index]) + (carry as int / LIMB) * Weight(index) == Val(xs[..index]) + Val(ys[..index])
      {
        ghost var done := result[..index];
        assert 0 <= xs[index] < 0x400_0000 && 0 <= ys[index] < 0x400_0000;
        CarryStep(done, (carry / 0x400_0000 + xs[index] + ys[index]) % 0x400_0000, carry as int / LIMB,
                  xs[index] as int + ys[index] as int);
        ValPrefix(xs, index);
        ValPrefix(ys, index);
        Scale(xs[index] as int, 1, ys[index] as int, Weight(index));
        carry := carry / 0x400_0000 + x[index] + y[index];
        result[index] := carry % 0x400_0000;
        assert result[..index + 1] == done + [result[index]];
      }
      assert xs[..10] == xs && ys[..10] == ys && result[..10] == result[..];
    }

    static method Sub(result: array<int32>, x: array<int32>, y: array<int32>)
      requires result.Length == x.Length == y.Length == 10
      requires Bounded(x[..]) && Bounded(y[..])
      modifies result
      ensures Bounded(result[..])
      ensures old(Canonical(x[..]) && Canonical(y[..]))
          ==> Canonical(result[..]) && Val(result[..]) == FSub(old(Val(x[..])), old(Val(y[..])))
      ensures Val(result[..]) == Difference(old(Val(x[..])), old(Val(y[..])))
    {
      hide Val, Weight, And, Difference;
      ghost var xs, ys := x[..], y[..];
      var borrow := SubLimbs(result, x, y);
      ghost var first, b := result[..], borrow as int / LIMB;
      AndMask(19);
      borrow := SubSmall(result, (And(-((borrow as int / LIMB) % 2), 19)) as int32);
      ghost var second := result[..];
      TopSplit(second);
      result[9] := result[9] % 0x20_0000;
      assert result[..] == second[9 := second[9] % 0x20_0000];
      ValBounds(xs);
      ValBounds(ys);
      ValBounds(first);
      ValBounds(second);
      SubValue(Val(xs), Val(ys), Val(first), b, Val(second), borrow as int / LIMB);
      if Canonical(xs) && Canonical(ys) {
        DifferenceCanonical(Val(xs), Val(ys));
      }
    }

    // The first loop of sub: limb by limb, with the borrow out of the top limb returned.
    static method SubLimbs(result: array<int32>, x: array<int32>, y: array<int32>) returns (borrow: int32)
      requires result.Length == x.Length == y.Length == 10
      requires Bounded(x[..]) && Bounded(y[..])
      modifies result
      ensures Bounded(result[..])
      ensures -1 <= borrow as int / LIMB <= 0
      ensures Val(result[..]) + (borrow as int / LIMB) * Weight(10) == old(Val(x[..])) - old(Val(y[..]))
    {
      hide Val, Weight;
      ValEmpty();
      ghost var xs, ys := x[..], y[..];
      borrow := 0;
      assert result[..0] == [] && xs[..0] == [] && ys[..0] == [];
      for index := 0 to 10
        invariant forall k :: index <= k < 10 ==> x[k] == xs[k] && y[k] == ys[k]
        invariant Bounded(result[..index])
        invariant -0x400_0000 <= borrow < 0x400_0000
        invariant Val(result[..index]) + (borrow as int / LIMB) * Weight(index) == Val(xs[..index]) - Val(ys[..index])
      {
        ghost var done := result[..index];
        assert x[index] == xs[index] && y[index] == ys[index] && 0 <= ys[index] < 0x400_0000;
        BorrowStep(xs, done, index, borrow, y[index], Val(ys[..index]));
        ValPrefix(ys, index);
        borrow := x[index] - y[index] - ((borrow / 0x400_0000) % 2);
        result[index] := borrow % 0x400_0000;
        assert result[..index + 1] == done + [result[index]];
      }
      assert xs[..10] == xs && ys[..10] == ys && result[..10] == result[..];
    }

    // The second loop of sub: a small number is taken off the bottom limb.
    static method SubSmall(result: array<int32>, d: int32) returns (borrow: int32)
      requires result.Length == 10 && Bounded(result[..]) && 0 <= d <= 19
      modifies result
      ensures Bounded(result[..])
      ensures -1 <= borrow as int / LIMB <= 0
      ensures Val(result[..]) + (borrow as int / LIMB) * Weight(10) == old(Val(result[..])) - d as int
    {
      hide Val, Weight;
      ValEmpty();
      ghost var rs := result[..];
      assert rs[..0] == [] && rs[0] == result[0];
      BorrowStep(rs, [], 0, 0, d, 0);
      borrow := result[0] - d;
      result[0] := borrow % 0x400_0000;
      assert result[..1] == [] + [result[0]];
      for index := 1 to 10
        invariant forall k :: index <= k < 10 ==> result[k] == rs[k]
        invariant Bounded(result[..index])
        invariant -0x400_0000 <= borrow < 0x400_0000
        invariant Val(result[..index]) + (borrow as int / LIMB) * Weight(index) == Val(rs[..index]) - d as int
      {
        ghost var done := result[..index];
        assert result[index] == rs[index];
        BorrowStep(rs, done, index, borrow, 0, d as int);
        borrow := result[index] - ((borrow / 0x400_0000) % 2);
        result[index] := borrow % 0x400_0000;
        assert result[..index + 1] == done + [result[index]];
      }
      assert rs[..10] == rs && result[..10] == result[..];
    }

    static method Cswap(select: int32, x: array<int32>, y: array<int32>)
      requires select == 0 || select == 1
      requires x.Length == y.Length == 10 && x != y
      requires Bounded(x[..]) && Bounded(y[..])
      modifies x, y
      ensures x[..] == if select == 1 then old(y[..]) else old(x[..])
      ensures y[..] == if select == 1 then old(x[..]) else old(y[..])
    {
      hide And, Xor;
      ghost var xs, ys := x[..], y[..];
      var mask := -select;
      for index := 0 to 10
        invariant forall k :: index <= k < 10 ==> x[k] == xs[k] && y[k] == ys[k]
        invariant forall k :: 0 <= k < index ==> x[k] == (if select == 1 then ys[k] else xs[k])
        invariant forall k :: 0 <= k < index ==> y[k] == (if select == 1 then xs[k] else ys[k])
      {
        assert 0 <= xs[index] < 0x400_0000 && 0 <= ys[index] < 0x400_0000;
        SwapStep(mask as int, xs[index] as int, ys[index] as int);
        var dummy := And(mask as int, Xor(x[index] as int, y[index] as int));
        x[index] := Xor(x[index] as int, dummy) as int32;
        y[index] := Xor(y[index] as int, dummy) as int32;
      }
      assert x[..] == if select == 1 then ys else xs;
      assert y[..] == if select == 1 then xs else ys;
    }

    // Squares a power in place n times.
    method SquareRepeatedly(x: array<int32>, n: nat, ghost ok: bool, ghost v: int, ghost e: nat)
      requires Valid() && x.Length == 10 && x != t2 && Bounded(x[..])
      requires ok ==> IsPower(x[..], v, e)
      modifies x, t1, t2
      ensures Valid() && Bounded(x[..])
      ensures ok ==> IsPower(x[..], v, e * Two(n))
    {
      hide Val, Pow, Two;
      Pattern();
      for j := 0 to n
        invariant Valid() && Bounded(x[..])
        invariant ok ==> IsPower(x[..], v, e * Two(j))
      {
        Square(x, x);
        PowMulMod(v, e * Two(j), e * Two(j), P);
        DoubleExponent(e, j);
      }
    }

    // x^(2^250 - 1)
    method Pow250(result: array<int32>, x: array<int32>)
      requires Valid() && result.Length == x.Length == A.Length == 10
      requires result != t2 && x != t2 && A != t2 && result != x && result != A && x != A
      requires Bounded(x[..])
      modifies result, A, t1, t2
      ensures Valid() && Bounded(result[..])
      ensures Canonical(x[..]) ==> IsPower(result[..], Val(x[..]), Two(250) - 1)
    {
      hide Val, Pow, Two;
      ghost var ok, v := Canonical(x[..]), Val(x[..]);
      ghost var e := BuildPattern(result, x);
      Square(A, result);
      PowMulMod(v, e, e, P);
      Mul(result, result, A);
      PowMulMod(v, e, 2 * e, P);
      Pattern();
      ghost var ea: nat, er: nat := 2 * e, 3 * e;
      for j := 0 to 8
        invariant Valid() && Bounded(A[..]) && Bounded(result[..])
        invariant ea == e * Two(j + 1) && er + e == 2 * ea
        invariant ok ==> IsPower(A[..], v, ea) && IsPower(result[..], v, er)
      {
        Square(A, A);
        PowMulMod(v, ea, ea, P);
        Mul(result, result, A);
        PowMulMod(v, er, 2 * ea, P);
        DoubleExponent(e, j + 1);
        ea, er := 2 * ea, er + 2 * ea;
      }
    }

    // The first phase of pow250. The exponent it returns is twenty-five ones that stand ten bits apart:
    // 1023 times it is 2^250 - 1.
    method BuildPattern(result: array<int32>, x: array<int32>) returns (ghost e: nat)
      requires Valid() && result.Length == x.Length == A.Length == 10
      requires result != t2 && x != t2 && A != t2 && result != x && result != A && x != A
      requires Bounded(x[..])
      modifies result, A, t1, t2
      ensures Valid() && Bounded(result[..])
      ensures 1023 * e == Two(250) - 1
      ensures Canonical(x[..]) ==> IsPower(result[..], Val(x[..]), e)
    {
      hide Val, Pow;
      ghost var xs := x[..];
      ghost var ok, v := Canonical(xs), Val(xs);
      PowerOne(xs);
      Square(A, x);
      PowMulMod(v, 1, 1, P);
      SquareRepeatedly(A, 9, ok, v, 2);
      Pattern();
      Mul(result, A, x);
      PowMulMod(v, Two(10), 1, P);
      e := 1025;
      for i := 0 to 23
        invariant Valid() && Bounded(A[..]) && Bounded(result[..]) && x[..] == xs
        invariant 1023 * e == Two(10 * (i + 2)) - 1
        invariant ok ==> IsPower(A[..], v, Two(10 * (i + 1))) && IsPower(result[..], v, e)
      {
        SquareRepeatedly(A, 10, ok, v, Two(10 * (i + 1)));
        TwoAdd(10 * (i + 1), 10);
        Mul(result, result, A);
        PowMulMod(v, e, Two(10 * (i + 2)), P);
        TwoAdd(10 * (i + 2), 10);
        e := e + Two(10 * (i + 2));
      }
    }

    // x^(p - 2)
    method Recip(result: array<int32>, x: array<int32>)
      requires Valid() && result.Length == x.Length == A.Length == 10
      requires result != t2 && x != t2 && A != t2 && result != x && result != A && x != A
      requires Bounded(x[..])
      modifies result, A, t1, t2
      ensures Valid() && Bounded(result[..])
      ensures Canonical(x[..]) ==> IsPower(result[..], Val(x[..]), P - 2)
    {
      hide Val, Pow, Two;
      ghost var xs := x[..];
      ghost var ok, v, e := Canonical(xs), Val(xs), Two(250) - 1;
      PowerOne(xs);
      Pow250(result, x);
      Square(result, result);
      PowMulMod(v, e, e, P);
      Square(result, result);
      PowMulMod(v, 2 * e, 2 * e, P);
      Mul(result, result, x);
      PowMulMod(v, 4 * e, 1, P);
      Square(result, result);
      PowMulMod(v, 4 * e + 1, 4 * e + 1, P);
      Square(result, result);
      PowMulMod(v, 8 * e + 2, 8 * e + 2, P);
      Mul(result, result, x);
      PowMulMod(v, 16 * e + 4, 1, P);
      Square(result, result);
      PowMulMod(v, 16 * e + 5, 16 * e + 5, P);
      Mul(result, result, x);
      PowMulMod(v, 32 * e + 10, 1, P);
      TopExponent();
    }

    // What the four ladder arrays hold, when the input point is canonical.
    ghost predicate Hold(ok: bool, s: Points)
      reads x_2, z_2, x_3, z_3
    {
      Is(x_2[..], ok, s.x2) && Is(z_2[..], ok, s.z2) && Is(x_3[..], ok, s.x3) && Is(z_3[..], ok, s.z3)
    }

    method LadderStep(ghost ok: bool, ghost u: int, ghost s: Points)
      requires Valid() && Allocated() && Is(x_1[..], ok, u) && Hold(ok, s)
      modifies x_2, z_2, x_3, z_3, A, B, C, D, E, AA, BB, DA, CB, t1, t2
      ensures Valid() && Hold(ok, Step(u, s)) && Is(x_1[..], ok, u)
      ensures Val(A[..]) == Sum(old(Val(x_2[..])), old(Val(z_2[..])))
      ensures Val(B[..]) == Difference(old(Val(x_2[..])), old(Val(z_2[..])))
    {
      hide Is, Val, Sum, Difference;
      ghost var a, b := FAdd(s.x2, s.z2), FSub(s.x2, s.z2);
      DoubleInputs(ok, s.x2, s.z2);
      CrossProducts(ok, s.x3, s.z3, a, b);
      ghost var da, cb := FMul(FSub(s.x3, s.z3), a), FMul(FAdd(s.x3, s.z3), b);
      NextSum(ok, u, da, cb);
      NextDouble(ok, FMul(a, a), FMul(b, b), FSub(FMul(a, a), FMul(b, b)));
    }

    // A null public key stands for the base point. Bit 255 of the key is not masked off: where it is set the result
    // is X25519 of the coordinate that RFC 7748 decodes plus 19, but for the nineteen highest coordinates. Those enter
    // the ladder as they are: what its first addition and its first subtraction give is returned for the
    // specification, and the subtraction misses the residue by 19.
    static method Eval(result: array<int8>, offset: nat, privateKey: array<int8>, publicKey: array?<int8>)
        returns (ghost sum: int, ghost difference: int)
      requires offset + 32 <= result.Length
      requires privateKey.Length == 32 && (publicKey != null ==> publicKey.Length == 32)
      modifies result
      ensures forall k :: 0 <= k < offset || offset + 32 <= k < result.Length ==> result[k] == old(result[k])
      ensures var v := if publicKey == null then 9 else LittleEndian(UnsignedBytes(old(publicKey[..])));
              v + 19 < Two(256)
              ==> LittleEndian(UnsignedBytes(result[offset..offset + 32])) == X25519(Scalar(old(privateKey[..])), v)
      ensures publicKey != null
              ==> var key := UnsignedBytes(old(publicKey[..]));
                  key[31] < 128 || LittleEndian(key) + 19 < Two(256)
                  ==> LittleEndian(UnsignedBytes(result[offset..offset + 32]))
                      == X25519(Scalar(old(privateKey[..])), DecodeCoordinate(key) + 19 * (key[31] / 128))
      ensures publicKey != null
              ==> var v := LittleEndian(UnsignedBytes(old(publicKey[..])));
                  v + 19 >= Two(256)
                  ==> sum == v + 1 && difference % P == (v - 1 - 19) % P && difference % P != (v - 1) % P
    {
      hide DecodeCoordinate, Val, LittleEndian, Scalar, Is, Pow, Two, X25519, Ladder, FMul, Sum, Difference, QuickReduce;
      ghost var scalar := Scalar(privateKey[..]);
      ghost var key := if publicKey == null then [] else UnsignedBytes(publicKey[..]);
      var state := new Curve25519();
      ghost var v := if publicKey == null then 9 else LittleEndian(UnsignedBytes(publicKey[..]));
      ghost var ok, u := v + 19 < Two(256), v % P;
      state.LoadPoint(publicKey, v, ok);
      sum, difference := state.EvalCurve(privateKey, ok, u);
      state.Finish(ok, Ladder(scalar, u));
      XBound(scalar, u);
      IsValue(state.x_2[..], ok, X25519(scalar, u));
      Pack(result, offset, state.x_2);
      X25519Reduces(scalar, v);
      if publicKey != null {
        Two256();
        UnmaskedResult(scalar, key);
        if !ok {
          LittleEndianBound(key);
          FirstOperations(v);
        }
      }
    }

    static method Clear(a: array<int32>)
      modifies a
      ensures forall k :: 0 <= k < a.Length ==> a[k] == 0
    {
      forall i | 0 <= i < a.Length {
        a[i] := 0;
      }
    }

    // The part of eval before evalCurve: the input point, reduced, and the ladder's starting points.
    method LoadPoint(publicKey: array?<int8>, ghost v: nat, ghost ok: bool)
      requires Valid() && Allocated()
      requires publicKey != null ==> publicKey.Length == 32
      requires v == if publicKey == null then 9 else LittleEndian(UnsignedBytes(publicKey[..]))
      requires ok == (v + 19 < Two(256))
      modifies x_1, x_2, x_3, z_2, z_3, t2
      ensures Valid() && Is(x_1[..], ok, v % P) && Hold(ok, Points(1, 0, v % P, 1))
      ensures Val(x_3[..]) == (if publicKey == null then 9 else QuickReduce(QuickReduce(v))) && Val(z_3[..]) == 1
    {
      hide Val, LittleEndian, Two, QuickReduce;
      LoadKey(publicKey, v, ok);
      ghost var point := x_1[..];
      Clear(x_2);
      x_2[0] := 1;
      Clear(z_2);
      forall i | 0 <= i < 10 {
        x_3[i] := x_1[i];
      }
      Clear(z_3);
      z_3[0] := 1;
      ValSingle(x_2[..]);
      ValSingle(z_2[..]);
      ValSingle(z_3[..]);
      assert x_1[..] == point && x_3[..] == point;
    }

    method LoadKey(publicKey: array?<int8>, ghost v: nat, ghost ok: bool)
      requires Valid() && Allocated()
      requires publicKey != null ==> publicKey.Length == 32
      requires v == if publicKey == null then 9 else LittleEndian(UnsignedBytes(publicKey[..]))
      requires ok == (v + 19 < Two(256))
      modifies x_1, t2
      ensures Valid() && Is(x_1[..], ok, v % P)
      ensures Val(x_1[..]) == if publicKey == null then 9 else QuickReduce(QuickReduce(v))
    {
      hide Val, LittleEndian, Two, QuickReduce;
      Clear(x_1);
      if publicKey != null {
        Unpack(x_1, publicKey);
        LittleEndianBound(UnsignedBytes(publicKey[..]));
        ReduceQuick(x_1);
        ReduceQuick(x_1);
        TrialSubtractionsReduce(v);
      } else {
        x_1[0] := 9;
        ValSingle(x_1[..]);
      }
    }

    // The part of eval after evalCurve: x_2 divided by z_2.
    method Finish(ghost ok: bool, ghost s: Points)
      requires Valid() && Allocated() && Hold(ok, s)
      modifies x_2, z_3, A, t1, t2
      ensures Is(x_2[..], ok, FMul(s.x2, Pow(s.z2, P - 2) % P))
    {
      hide Val, Bounded, FMul, Pow;
      Recip(z_3, z_2);
      Mul(x_2, x_2, z_3);
    }

    // eval's first loop: 32 little-endian bytes into ten limbs. Shifted bits that leave the int are masked off.
    static method Unpack(limbs: array<int32>, bytes: array<int8>)
      requires limbs.Length == 10 && bytes.Length == 32
      requires forall k :: 0 <= k < 10 ==> limbs[k] == 0
      modifies limbs
      ensures Bounded(limbs[..]) && Val(limbs[..]) == LittleEndian(UnsignedBytes(bytes[..]))
    {
      hide Val, LittleEndian, Two;
      ghost var input := UnsignedBytes(bytes[..]);
      UnpackStart(limbs[..], input);
      for index := 0 to 32
        invariant UnsignedBytes(bytes[..]) == input
        invariant Filled(limbs[..], 8 * index)
        invariant Val(limbs[..]) == LittleEndian(input[..index])
      {
        ghost var before := limbs[..];
        var bit, word := (index * 8) % 26, (index * 8) / 26;
        var value := Unsigned(bytes[index]);
        assert value == input[index];
        assert input[..index + 1] == input[..index] + [value];
        LittleEndianSnoc(input[..index], value);
        if bit <= 26 - 8 {
          UnpackWithin(before, word, bit, value);
          limbs[word] := Or(WrapInt(value * Two(bit)) as int, limbs[word] as int) as int32;
          assert limbs[..] == before[word := limbs[word]];
        } else {
          UnpackAcross(before, word, bit, value);
          limbs[word] := Or(WrapInt(value * Two(bit)) as int, limbs[word] as int) as int32;
          limbs[word] := limbs[word] % 0x400_0000;
          limbs[word + 1] := Or(value / Two(26 - bit), limbs[word + 1] as int) as int32;
          assert limbs[..] == before[word := limbs[word]][word + 1 := limbs[word + 1]];
        }
      }
      assert input[..32] == input;
    }

    // eval's last loop: ten limbs into 32 little-endian bytes.
    static method Pack(result: array<int8>, offset: nat, limbs: array<int32>)
      requires limbs.Length == 10 && offset + 32 <= result.Length
      requires Bounded(limbs[..])
      modifies result
      ensures forall k :: 0 <= k < offset || offset + 32 <= k < result.Length ==> result[k] == old(result[k])
      ensures Val(limbs[..]) < Two(256)
          ==> LittleEndian(UnsignedBytes(result[offset..offset + 32])) == Val(limbs[..])
    {
      hide Val, LittleEndian, Two, Or, ToByte;
      ghost var s := limbs[..];
      for index := 0 to 32
        invariant limbs[..] == s
        invariant forall k :: 0 <= k < offset || offset + 32 <= k < result.Length ==> result[k] == old(result[k])
        invariant forall k :: 0 <= k < index ==> Unsigned(result[offset + k]) == (Val(s) / Two(8 * k)) % 256
      {
        var bit, word := (index * 8) % 26, (index * 8) / 26;
        assert limbs[word] == s[word];
        if bit <= 26 - 8 {
          PackWithin(s, word, bit);
          result[offset + index] := ToByte(limbs[word] as int / Two(bit));
        } else {
          assert limbs[word + 1] == s[word + 1];
          PackAcross(s, word, bit);
          result[offset + index] := ToByte(Or(WrapInt(limbs[word + 1] as int * Two(26 - bit)) as int,
                                              limbs[word] as int / Two(bit)));
        }
      }
      ghost var bytes := UnsignedBytes(result[offset..offset + 32]);
      ValBounds(s);
      if Val(s) < Two(256) {
        LittleEndianDigits(bytes, Val(s));
      }
    }

    // The loop over the bits of the clamped scalar, from bit 254 down. What its first addition and its first
    // subtraction give is returned for the specification: bit 254 is set, so that they are of x_3 and z_3.
    method EvalCurve(s: array<int8>, ghost ok: bool, ghost u: int) returns (ghost sum: int, ghost difference: int)
      requires Valid() && Allocated() && s.Length == 32
      requires Is(x_1[..], ok, u) && Hold(ok, Points(1, 0, u, 1))
      modifies x_2, z_2, x_3, z_3, A, B, C, D, E, AA, BB, DA, CB, t1, t2
      ensures Valid() && Hold(ok, Ladder(Scalar(s[..]), u))
      ensures sum == Sum(old(Val(x_3[..])), old(Val(z_3[..])))
      ensures difference == Difference(old(Val(x_3[..])), old(Val(z_3[..])))
    {
      hide Is, Or, And, Scalar, Bit, Hold, Allocated, Loop, ScalarByte, Val, Sum, Difference;
      ghost var x, z := x_3[..], z_3[..];
      sum, difference := 0, 0;
      ghost var bytes, n := s[..], 0;
      ghost var k := Scalar(bytes);
      var sposn, sbit := 31, 6;
      ScalarByteRange(bytes, 31);
      LoopStart(k, u);
      var svalue: int32 := Or(s[sposn] as int, 0x40) as int32;
      var swap: int32 := 0;

      while true
        invariant Valid() && s[..] == bytes && Is(x_1[..], ok, u)
        invariant 0 <= sposn <= 31 && 0 <= sbit <= 7 && (sposn == 31 ==> sbit < 7)
        invariant svalue as int == ScalarByte(bytes, sposn)
        invariant 8 * sposn + sbit == 254 - n && 0 <= n
        invariant 0 <= swap <= 1 && swap as int == Loop(k, u, n).swap
        invariant Hold(ok, Loop(k, u, n).points)
        invariant n == 0 ==> swap == 0 && svalue as int == Or(bytes[31] as int, 0x40) && x_3[..] == x && z_3[..] == z
        invariant n > 0 ==> sum == Sum(Val(x), Val(z)) && difference == Difference(Val(x), Val(z))
        decreases 8 * sposn + sbit
      {
        HighestBit(bytes[31] as int);
        ghost var prev := Loop(k, u, n);
        var select: int32 := Bit(svalue as int, sbit) as int32;
        ScalarBit(bytes, sposn, sbit);
        XorOfBits(swap as int, select as int);
        swap := Xor(swap as int, select as int) as int32;
        Round(swap, ok, u, prev.points);
        swap := select;
        if n == 0 {
          sum, difference := Val(A[..]), Val(B[..]);
        }
        n := n + 1;
        LoopNext(k, u, n);

        if sbit > 0 {
          sbit := sbit - 1;
        } else if sposn == 0 {
          break;
        } else if sposn == 1 {
          sposn := sposn - 1;
          ScalarByteRange(bytes, 0);
          svalue := And(s[sposn] as int, 0xF8) as int32;
          sbit := 7;
        } else {
          sposn := sposn - 1;
          ScalarByteRange(bytes, sposn);
          svalue := s[sposn] as int32;
          sbit := 7;
        }
      }
      assert n == 255;
      SwapPoints(swap, ok, Loop(k, u, 255).points);
    }

    // A round of the loop once the bit is known.
    method Round(swap: int32, ghost ok: bool, ghost u: int, ghost s: Points)
      requires Valid() && Allocated() && 0 <= swap <= 1 && Is(x_1[..], ok, u) && Hold(ok, s)
      modifies x_2, z_2, x_3, z_3, A, B, C, D, E, AA, BB, DA, CB, t1, t2
      ensures Valid() && Is(x_1[..], ok, u) && Hold(ok, Step(u, Swap(swap as int, s)))
      ensures swap == 1
          ==> Val(A[..]) == Sum(old(Val(x_3[..])), old(Val(z_3[..])))
              && Val(B[..]) == Difference(old(Val(x_3[..])), old(Val(z_3[..])))
    {
      hide Is, Hold, Allocated, Val, Sum, Difference, Step, Swap;
      SwapPoints(swap, ok, s);
      LadderStep(ok, u, Swap(swap as int, s));
    }

    // The two conditional swaps that stand together before the loop body and at the end.
    method SwapPoints(swap: int32, ghost ok: bool, ghost s: Points)
      requires Allocated() && 0 <= swap <= 1 && Hold(ok, s)
      modifies x_2, z_2, x_3, z_3
      ensures Hold(ok, Swap(swap as int, s)) && x_1[..] == old(x_1[..])
      ensures swap == 1 ==> x_2[..] == old(x_3[..]) && z_2[..] == old(z_3[..])
    {
      Cswap(swap, x_2, x_3);
      Cswap(swap, z_2, z_3);
    }

    method DoubleInputs(ghost ok: bool, ghost x2: int, ghost z2: int)
      requires Valid() && Allocated() && Is(x_2[..], ok, x2) && Is(z_2[..], ok, z2)
      modifies A, AA, B, BB, E, t1, t2
      ensures Valid()
      ensures var a, b := FAdd(x2, z2), FSub(x2, z2);
              && Is(A[..], ok, a) && Is(AA[..], ok, FMul(a, a))
              && Is(B[..], ok, b) && Is(BB[..], ok, FMul(b, b))
              && Is(E[..], ok, FSub(FMul(a, a), FMul(b, b)))
      ensures Val(A[..]) == Sum(Val(x_2[..]), Val(z_2[..])) && Val(B[..]) == Difference(Val(x_2[..]), Val(z_2[..]))
    {
      hide Val, Bounded, FMul, FAdd, FSub, Sum, Difference;
      Add(A, x_2, z_2);
      Square(AA, A);
      Sub(B, x_2, z_2);
      Square(BB, B);
      Sub(E, AA, BB);
    }

    method CrossProducts(ghost ok: bool, ghost x3: int, ghost z3: int, ghost a: int, ghost b: int)
      requires Valid() && Allocated()
      requires Is(x_3[..], ok, x3) && Is(z_3[..], ok, z3) && Is(A[..], ok, a) && Is(B[..], ok, b)
      modifies C, D, DA, CB, t1, t2
      ensures Valid()
      ensures Is(DA[..], ok, FMul(FSub(x3, z3), a)) && Is(CB[..], ok, FMul(FAdd(x3, z3), b))
    {
      hide Val, Bounded, FMul, FAdd, FSub;
      Add(C, x_3, z_3);
      Sub(D, x_3, z_3);
      Mul(DA, D, A);
      Mul(CB, C, B);
    }

    method NextSum(ghost ok: bool, ghost u: int, ghost da: int, ghost cb: int)
      requires Valid() && Allocated() && Is(x_1[..], ok, u)
      requires Is(DA[..], ok, da) && Is(CB[..], ok, cb)
      modifies x_3, z_3, t1, t2
      ensures Valid()
      ensures var sum, diff := FAdd(da, cb), FSub(da, cb);
              Is(x_3[..], ok, FMul(sum, sum)) && Is(z_3[..], ok, FMul(u, FMul(diff, diff)))
    {
      hide Val, Bounded, FMul, FAdd, FSub;
      Add(x_3, DA, CB);
      Square(x_3, x_3);
      Sub(z_3, DA, CB);
      Square(z_3, z_3);
      Mul(z_3, z_3, x_1);
      FMulCommutes(FMul(FSub(da, cb), FSub(da, cb)), u);
    }

    method NextDouble(ghost ok: bool, ghost aa: int, ghost bb: int, ghost e: int)
      requires Valid() && Allocated()
      requires Is(AA[..], ok, aa) && Is(BB[..], ok, bb) && Is(E[..], ok, e)
      modifies x_2, z_2, t1, t2
      ensures Valid()
      ensures Is(x_2[..], ok, FMul(aa, bb)) && Is(z_2[..], ok, FMul(e, FAdd(aa, FMul(A24, e))))
    {
      hide Val, Bounded, FMul, FAdd, FSub;
      Mul(x_2, AA, BB);
      MulA24(z_2, E);
      Add(z_2, z_2, AA);
      Mul(z_2, z_2, E);
      FAddCommutes(FMul(A24, e), aa);
      FMulCommutes(FAdd(aa, FMul(A24, e)), e);
    }
  }

  // No bit is set from position n up.
  ghost predicate Filled(s: seq<int32>, n: nat) {
    && |s| == 10 && Bounded(s) && n / 26 < 10
    && s[n / 26] as int < Two(n % 26)
    && forall k :: n / 26 < k < 10 ==> s[k] == 0
  }

  lemma UnpackStart(s: seq<int32>, input: seq<nat>)
    requires |s| == 10 && forall k :: 0 <= k < 10 ==> s[k] == 0
    ensures Filled(s, 0) && Val(s) == LittleEndian(input[..0])
  {
    ValZero(s);
  }

  lemma {:induction false} ValZero(s: seq<int32>)
    requires forall k :: 0 <= k < |s| ==> s[k] == 0
    ensures Val(s) == 0
  {
    if |s| > 0 {
      ValZero(s[..|s| - 1]);
    }
  }

  // A byte shifted into a limb that is filled up to the position, the shift being one of an int.
  function Shifted(x: nat, value: nat, bit: nat): int {
    Or(WrapInt(value * Two(bit)) as int, x)
  }

  lemma TwoMonotone(a: nat, b: nat)
    requires a <= b
    ensures Two(a) <= Two(b)
  {
    TwoAdd(a, b - a);
    MulMono(1, Two(b - a), Two(a));
  }

  lemma ByteFits(x: nat, value: nat, bit: nat)
    requires bit <= 18 && x < Two(bit) && value < 256
    ensures Shifted(x, value, bit) == x + value * Two(bit) < Two(bit + 8) <= LIMB
  {
    hide Or;
    assert Two(8) == 256;
    TwoAdd(bit, 8);
    TwoMonotone(bit + 8, 26);
    Two26();
    MulMono(value, 255, Two(bit));
    MulMono(0, value, Two(bit));
    OrDisjoint(x, value, bit);
  }

  lemma ByteSplits(x: nat, value: nat, bit: nat)
    requires 18 < bit < 26 && x < Two(bit) && value < 256
    ensures -0x8000_0000 <= Shifted(x, value, bit) < 0x8000_0000
    ensures x + value * Two(bit) == Shifted(x, value, bit) % LIMB + LIMB * (value / Two(26 - bit))
    ensures value / Two(26 - bit) < Two(bit - 18) <= LIMB
  {
    hide Or, Two, Shifted;
    var t, t', y := Two(bit), Two(26 - bit), value * Two(bit);
    Two26();
    TwoAdd(bit, 26 - bit);
    TwoAdd(26 - bit, bit - 18);
    TwoMonotone(bit - 18, 26);
    SmallTwos();
    var m := ShiftWraps(x, value, bit);
    var q, r := value / t', value % t';
    CrossLimb(x, value, q, r, t, t');
    DivModUnique(x + y, q, x + r * t, LIMB);
    ModEq(x + y, Shifted(x, value, bit), 64 * m, LIMB);
    TopOfByte(value, q, r, t', Two(bit - 18));
  }

  // The wrap takes off a multiple of 2^32, which is one of the power of two that the byte is shifted by.
  lemma ShiftWraps(x: nat, value: nat, bit: nat) returns (m: int)
    requires 18 < bit < 26 && x < Two(bit) && value < 256
    ensures Shifted(x, value, bit) == x + value * Two(bit) - m * 0x1_0000_0000
    ensures -0x8000_0000 <= Shifted(x, value, bit) < 0x8000_0000
  {
    hide Or, Two;
    var t, t', y := Two(bit), Two(26 - bit), value * Two(bit);
    Two26();
    TwoAdd(bit, 26 - bit);
    m := y / 0x1_0000_0000 + (if y % 0x1_0000_0000 < 0x8000_0000 then 0 else 1);
    assert WrapInt(y) as int == y - m * 0x1_0000_0000;
    Factor(value, m, t, t');
    OrDisjoint(x, value - m * (64 * t'), bit);
    WrappedRange(x, WrapInt(y) as int, value - m * (64 * t'), bit);
  }

  lemma SmallTwos()
    ensures Two(6) == 64 && Two(8) == 256 && Two(31) == 0x8000_0000
  {
    Two26();
    TwoAdd(26, 5);
  }

  lemma Factor(value: int, m: int, t: int, t': int)
    requires t * t' == LIMB
    ensures (value - m * (64 * t')) * t == value * t - m * 0x1_0000_0000
  {
    assert m * (64 * t') * t == m * 64 * (t * t');
  }

  lemma CrossLimb(x: int, value: int, q: int, r: int, t: int, t': int)
    requires t * t' == LIMB && value == q * t' + r && 0 <= r < t' && 0 <= x < t
    ensures x + value * t == q * LIMB + (x + r * t)
    ensures 0 <= x + r * t < LIMB
  {
    assert (q * t' + r) * t == q * (t * t') + r * t;
    MulMono(r, t' - 1, t);
    MulMono(0, r, t);
    assert (t' - 1) * t == t * t' - t;
  }

  lemma TopOfByte(value: int, q: int, r: int, t': int, top: int)
    requires value == q * t' + r && 0 <= r < t' && value < 256 && t' * top == 256
    ensures q < top
  {
    if q >= top {
      MulMono(top, q, t');
    }
  }

  // A multiple of a power of two in the range of an int leaves room below it.
  lemma WrappedRange(x: int, w: int, b: int, bit: nat)
    requires bit < 31 && 0 <= x < Two(bit) && -0x8000_0000 <= w < 0x8000_0000 && w == b * Two(bit)
    ensures -0x8000_0000 <= w + x < 0x8000_0000
  {
    hide Two;
    SmallTwos();
    TwoAdd(bit, 31 - bit);
    if b >= Two(31 - bit) {
      MulMono(Two(31 - bit), b, Two(bit));
    }
    MulMono(b, Two(31 - bit) - 1, Two(bit));
    assert (Two(31 - bit) - 1) * Two(bit) == 0x8000_0000 - Two(bit);
  }

  lemma UnpackWithin(s: seq<int32>, word: nat, bit: nat, value: nat)
    requires word < 10 && bit <= 18 && 26 * word + bit <= 248 && value < 256
    requires Filled(s, 26 * word + bit)
    ensures 0 <= Shifted(s[word] as int, value, bit) < LIMB
    ensures var t := s[word := Shifted(s[word] as int, value, bit) as int32];
            Filled(t, 26 * word + bit + 8) && Val(t) == Val(s) + value * Two(26 * word + bit)
  {
    hide Val, Shifted, Two;
    var n, x := 26 * word + bit, s[word] as int;
    assert n / 26 == word && n % 26 == bit;
    ByteFits(x, value, bit);
    MulMono(0, value, Two(bit));
    TwoMonotone(0, bit);
    TwoZero();
    var t := s[word := Shifted(x, value, bit) as int32];
    ValUpdate(s, word, t[word]);
    TwoAdd(26 * word, bit);
    assert value * Two(bit) * Weight(word) == value * (Weight(word) * Two(bit));
    if bit == 18 {
      assert (n + 8) / 26 == word + 1 && (n + 8) % 26 == 0;
    } else {
      assert (n + 8) / 26 == word && (n + 8) % 26 == bit + 8;
    }
  }

  lemma TwoZero()
    ensures Two(0) == 1
  {
  }

  lemma UnpackAcross(s: seq<int32>, word: nat, bit: nat, value: nat)
    requires word < 10 && 18 < bit < 26 && 26 * word + bit <= 248 && value < 256
    requires Filled(s, 26 * word + bit)
    ensures word < 9
    ensures -0x8000_0000 <= Shifted(s[word] as int, value, bit) < 0x8000_0000
    ensures Or(value / Two(26 - bit), s[word + 1] as int) == value / Two(26 - bit) < LIMB
    ensures var low, high := (Shifted(s[word] as int, value, bit) % LIMB) as int32, (value / Two(26 - bit)) as int32;
            var t := s[word := low][word + 1 := high];
            Filled(t, 26 * word + bit + 8) && Val(t) == Val(s) + value * Two(26 * word + bit)
  {
    hide Val, Shifted, Two;
    var n, x := 26 * word + bit, s[word] as int;
    assert n / 26 == word && n % 26 == bit && (n + 8) / 26 == word + 1 && (n + 8) % 26 == bit - 18;
    ByteSplits(x, value, bit);
    var low, high := Shifted(x, value, bit) % LIMB, value / Two(26 - bit);
    OrZero(high);
    var t := s[word := low as int32];
    ValUpdate(s, word, low as int32);
    ValUpdate(t, word + 1, high as int32);
    TwoAdd(26 * word, bit);
    WeightStep(word);
    Across(Val(s), x, value, low, high, Weight(word), Two(bit));
  }

  lemma Across(v: int, x: int, value: int, low: int, high: int, w: int, t: int)
    requires x + value * t == low + LIMB * high
    ensures v + (low - x) * w + high * (w * LIMB) == v + value * (w * t)
  {
    assert (low - x + high * LIMB) * w == value * t * w;
  }

  lemma ByteOfInt(x: int)
    ensures Unsigned(ToByte(x)) == x % 256
  {
  }

  lemma TailSplit(s: seq<int32>, k: nat)
    requires k < |s|
    ensures Val(s[k..]) == s[k] as int + LIMB * Val(s[k + 1..])
  {
    hide Val, Weight;
    var t := s[k..];
    ValSplit(t, 1);
    ValEmpty();
    ValPrefix(t, 0);
    assert t[..0] == [] && t[1..] == s[k + 1..];
    WeightStep(0);
  }

  // What stands at and above a position: the rest of the limb there and the limbs above it.
  lemma Above(s: seq<int32>, word: nat, bit: nat)
    requires |s| == 10 && Bounded(s) && word < 10 && bit <= 26
    ensures Val(s) / Two(26 * word + bit) == s[word] as int / Two(bit) + Two(26 - bit) * Val(s[word + 1..])
  {
    hide Val, Two;
    ValSplit(s, word);
    ValBounds(s[..word]);
    TailSplit(s, word);
    var x, rest := s[word] as int, Val(s[word + 1..]);
    ValBounds(s[word + 1..]);
    DivModUnique(Val(s), Val(s[word..]), Val(s[..word]), Weight(word));
    TwoAdd(26 * word, bit);
    DivDiv(Val(s), Weight(word), Two(bit));
    Two26();
    TwoAdd(bit, 26 - bit);
    DropMultiple(x, Two(bit), Two(26 - bit), rest);
  }

  lemma DropMultiple(x: int, t: int, t': int, rest: int)
    requires t > 0 && t * t' == LIMB
    ensures (x + LIMB * rest) / t == x / t + t' * rest
  {
    assert LIMB * rest == (t' * rest) * t;
    DivModUnique(x + LIMB * rest, x / t + t' * rest, x % t, t);
  }

  lemma PackWithin(s: seq<int32>, word: nat, bit: nat)
    requires |s| == 10 && Bounded(s) && word < 10 && bit <= 18
    ensures Unsigned(ToByte(s[word] as int / Two(bit))) == (Val(s) / Two(26 * word + bit)) % 256
  {
    hide Val, Two, ToByte;
    Above(s, word, bit);
    var x, rest := s[word] as int / Two(bit), Val(s[word + 1..]);
    ByteOfInt(x);
    SmallTwos();
    TwoAdd(8, 18 - bit);
    assert Two(26 - bit) * rest == (Two(18 - bit) * rest) * 256;
    ModEq(x + Two(26 - bit) * rest, x, Two(18 - bit) * rest, 256);
  }

  lemma PackAcross(s: seq<int32>, word: nat, bit: nat)
    requires |s| == 10 && Bounded(s) && word < 9 && 18 < bit < 26
    ensures Unsigned(ToByte(Or(WrapInt(s[word + 1] as int * Two(26 - bit)) as int, s[word] as int / Two(bit))))
         == (Val(s) / Two(26 * word + bit)) % 256
  {
    hide Val, Two, ToByte, Or;
    Above(s, word, bit);
    TailSplit(s, word + 1);
    Two26();
    TwoAdd(bit, 26 - bit);
    var t, t', x, y := Two(bit), Two(26 - bit), s[word] as int / Two(bit), s[word + 1] as int;
    Quotient(s[word] as int % t, x, t, t');
    var m := (y * t') / 0x1_0000_0000 + (if (y * t') % 0x1_0000_0000 < 0x8000_0000 then 0 else 1);
    assert WrapInt(y * t') as int == y * t' - m * 0x1_0000_0000;
    Factor(y, m, t', t);
    OrDisjoint(x, y - m * (64 * t), 26 - bit);
    ByteOfInt(x + y * t' - m * 0x1_0000_0000);
    CrossByte(x, y, t', Val(s[word + 2..]), m);
  }

  lemma CrossByte(x: int, y: int, t: int, rest: int, m: int)
    ensures (x + t * (y + LIMB * rest)) % 256 == (x + y * t - m * 0x1_0000_0000) % 256
  {
    var low := x + y * t - m * 0x1_0000_0000;
    assert x + t * (y + LIMB * rest) == low + (t * rest * 0x4_0000 + m * 0x100_0000) * 256;
    ModEq(x + t * (y + LIMB * rest), low, t * rest * 0x4_0000 + m * 0x100_0000, 256);
  }

  // Ten limbs in range that hold the field element v, as far as the input point was canonical.
  ghost predicate Is(s: seq<int32>, ok: bool, v: int) {
    |s| == 10 && Bounded(s) && (ok ==> Canonical(s) && Val(s) == v)
  }

  // The limbs hold v^e mod p.
  ghost predicate IsPower(s: seq<int32>, v: int, e: nat) {
    Canonical(s) && Val(s) == Pow(v, e) % P
  }

  lemma PowerOne(s: seq<int32>)
    ensures Canonical(s) ==> IsPower(s, Val(s), 1)
  {
    if Canonical(s) {
      ValBounds(s);
      assert Pow(Val(s), 1) == Val(s) * Pow(Val(s), 0);
    }
  }

  lemma DoubleExponent(e: nat, n: nat)
    ensures e * Two(n) >= 0 && e * Two(n) + e * Two(n) == e * Two(n + 1)
  {
  }

  lemma Pattern()
    ensures Two(0) == 1 && Two(1) == 2 && Two(9) == 512 && Two(10) == 1024 && Two(20) == 1024 * 1024
  {
    TwoAdd(10, 10);
  }

  lemma TopExponent()
    ensures 32 * (Two(250) - 1) + 11 == P - 2
  {
    Two255();
    TwoAdd(250, 5);
  }

  // The low 255 bits of a limb sequence.
  ghost function Low(s: seq<int32>): seq<int32>
    requires |s| >= 10
  {
    s[..10][9 := s[9] % 0x20_0000]
  }

  // The number above bit 255 of a product is the top five bits of limb 9 and everything above it.
  lemma ReduceSplit(input: seq<int32>, low: seq<int32>, high: seq<int32>)
    requires |input| >= 10 && Bounded(input)
    requires low == Low(input) && high == input[10..]
    ensures Bounded(low) && Bounded(high) && 0 <= Val(low) < TOP
    ensures Val(input) == Val(low) + TOP * (input[9] as int / 0x20_0000 + 32 * Val(high))
  {
    hide Val, Weight;
    TopSplit(input[..10]);
    ValSplit(input, 10);
    Weight10();
    AboveTop(Val(input[..10]), Weight(10), Val(high), input[9] as int / 0x20_0000, TOP);
  }

  lemma AboveTop(low: int, w: int, high: int, q: int, t: int)
    requires w == 32 * t
    ensures low + w * high == (low - q * t) + t * (q + 32 * high)
  {
  }

  // One round of the first folding loop: the next digit above bit 255 is split off and added in nineteen times.
  lemma ReduceStep(done: seq<int32>, digits: seq<int32>, carry: int32, limb: int32,
                   low: seq<int32>, high: seq<int32>, index: nat, top: int)
    requires |done| == |digits| == index < |low| && index < |high|
    requires Bounded(low) && Bounded(high)
    requires 0 <= limb < 32 && 0 <= carry <= 19
    requires Val(digits) + limb as int * Weight(index) == top + 32 * Val(high[..index])
    requires Val(done) + carry as int * Weight(index) == Val(low[..index]) + 19 * Val(digits)
    ensures limb as int + high[index] as int * 32 < 0x8000_0000
    ensures var total := limb + high[index] * 32;
            var digit := total % 0x400_0000;
            var sum := carry + digit * 19 + low[index];
            && 0 <= total / 0x400_0000 < 32 && 0 <= sum / 0x400_0000 <= 19
            && Val(digits + [digit]) + (total / 0x400_0000) as int * Weight(index + 1) == top + 32 * Val(high[..index + 1])
            && Val(done + [sum % 0x400_0000]) + (sum / 0x400_0000) as int * Weight(index + 1)
               == Val(low[..index + 1]) + 19 * Val(digits + [digit])
  {
    hide Val, Weight;
    assert 0 <= high[index] < 0x400_0000 && 0 <= low[index] < 0x400_0000;
    var h, l := high[index] as int, low[index] as int;
    var total := limb + high[index] * 32;
    var digit := total % 0x400_0000;
    var sum := carry + digit * 19 + low[index];
    CarryStep(digits, digit, limb as int, h * 32);
    CarryStep(done, sum % 0x400_0000, carry as int, digit as int * 19 + l);
    ValPrefix(high, index);
    ValPrefix(low, index);
    ValSnoc(digits, digit);
    Scale(h, 32, 0, Weight(index));
    Scale(digit as int, 19, l, Weight(index));
  }

  // One limb of a subtraction: what is taken off so far, the limb y of it and the borrow out of the limb.
  lemma BorrowStep(xs: seq<int32>, done: seq<int32>, index: nat, borrow: int32, y: int32, taken: int)
    requires |done| == index < |xs| && Bounded(xs) && -0x400_0000 <= borrow < 0x400_0000 && 0 <= y < 0x400_0000
    requires Val(done) + (borrow as int / LIMB) * Weight(index) == Val(xs[..index]) - taken
    ensures var next := xs[index] - y - ((borrow / 0x400_0000) % 2);
            && -0x400_0000 <= next < 0x400_0000
            && Val(done + [next % 0x400_0000]) + (next as int / LIMB) * Weight(index + 1)
            == Val(xs[..index + 1]) - (taken + y as int * Weight(index))
  {
    hide Val, Weight;
    var c := borrow as int / LIMB;
    assert -1 <= c <= 0 && ((borrow / 0x400_0000) % 2) as int == -c;
    assert 0 <= xs[index] < 0x400_0000;
    var next, step := xs[index] - y - ((borrow / 0x400_0000) % 2), xs[index] as int - y as int;
    assert next as int == c + step && (next % 0x400_0000) as int == (c + step) % LIMB;
    CarryStep(done, next % 0x400_0000, c, step);
    ValPrefix(xs, index);
    Scale(y as int, -1, xs[index] as int, Weight(index));
  }

  // One limb of the multiplication by a24.
  lemma A24Step(xs: seq<int32>, done: seq<int32>, index: nat, carry: int64)
    requires |done| == index < |xs| && Bounded(xs) && Bounded(done) && 0 <= carry <= 121665
    requires Val(done) + carry as int * Weight(index) == A24 * Val(xs[..index])
    ensures var total := carry + 121665 * (xs[index] as int64);
            && 0 <= total / 0x400_0000 <= 121665
            && Val(done + [(total % 0x400_0000) as int32]) + (total / 0x400_0000) as int * Weight(index + 1)
               == A24 * Val(xs[..index + 1])
  {
    hide Val, Weight;
    assert 0 <= xs[index] < 0x400_0000;
    var total := carry + 121665 * (xs[index] as int64);
    var product := A24 * (xs[index] as int);
    assert total as int == carry as int + product;
    CarryStep(done, (total % 0x400_0000) as int32, carry as int, product);
    ValPrefix(xs, index);
    Scale(xs[index] as int, A24, 0, Weight(index));
  }

  lemma Scale(a: int, k: int, b: int, w: int)
    ensures (a * k + b) * w == k * (a * w) + b * w
  {
  }

  // What the two folds and the final trial subtraction leave of a number below 2^510.
  lemma FoldValue(v: int, low: int, h: int, ws: int, digits: int, limb: int, w10: int,
                  once: int, carry: int, fold: int, twice: int, carry': int)
    requires ws > 0 && 0 <= low < TOP && h >= 0 && w10 == Weight(10)
    requires v == low + TOP * h
    requires digits >= 0 && limb >= 0 && digits + limb * ws == h
    requires once >= 0 && carry >= 0 && once + carry * w10 == low + 19 * digits
    requires fold == once / TOP
    requires twice >= 0 && carry' >= 0 && twice + carry' * w10 == once - fold * TOP + fold * 19
    ensures v < TOP * TOP && v < TOP * ws
        ==> limb == 0 && carry == 0 && carry' == 0 && twice < 2 * P && QuickReduce(twice) == v % P
  {
    hide Weight;
    if v < TOP * TOP && v < TOP * ws {
      Weight10();
      FoldTwice(v, low, h, ws, digits, limb, w10, once, carry, fold, twice, carry', TOP);
      ModEq(v, twice, h + fold, P);
      QuickReduceOnce(twice);
    }
  }

  // A non-negative remainder plus a carry cannot make a total below the carry's weight unless the carry is zero.
  lemma NoCarry(value: int, carry: int, w: int, total: int)
    requires value >= 0 && carry >= 0 && w > 0 && value + carry * w == total < w
    ensures carry == 0 && value == total
  {
    if carry >= 1 {
      MulMono(1, carry, w);
    }
  }

  lemma Quotient(low: int, h: int, t: int, bound: int)
    requires t > 0 && 0 <= low && low + t * h < t * bound
    ensures h < bound
  {
    if h >= bound {
      MulMono(bound, h, t);
    }
  }

  // The folding argument on plain numbers: t stands for 2^255 and ws for the weight of the first limb not read.
  lemma FoldTwice(v: int, low: int, h: int, ws: int, digits: int, limb: int, w10: int,
                  once: int, carry: int, fold: int, twice: int, carry': int, t: int)
    requires t > 1000 && ws > 0 && 0 <= low < t && h >= 0
    requires v == low + t * h && v < t * t && v < t * ws
    requires digits >= 0 && limb >= 0 && digits + limb * ws == h
    requires w10 == 32 * t
    requires once >= 0 && carry >= 0 && once + carry * w10 == low + 19 * digits
    requires fold == once / t
    requires twice >= 0 && carry' >= 0 && twice + carry' * w10 == once - fold * t + fold * 19
    ensures limb == 0 && carry == 0 && carry' == 0
    ensures 0 <= twice <= t + 360
    ensures v == twice + (h + fold) * (t - 19)
  {
    Quotient(low, h, t, t);
    Quotient(low, h, t, ws);
    NoCarry(digits, limb, ws, h);
    NoCarry(once, carry, w10, low + 19 * digits);
    var rest := once % t;
    assert once == fold * t + rest;
    Quotient(rest, fold, t, 20);
    NoCarry(twice, carry', w10, once - fold * t + fold * 19);
    assert (h + fold) * (t - 19) == t * h - 19 * h + fold * t - 19 * fold;
  }

  // Two trial subtractions reduce a 256-bit number exactly when adding 19 to it does not carry out of bit 255.
  // For the nineteen numbers from 2^256 - 19 up, which eval's comment counts in, they change nothing.
  lemma TrialSubtractionsReduce(v: nat)
    requires v < Two(256)
    ensures QuickReduce(QuickReduce(v)) == v % P <==> v + 19 < Two(256)
    ensures v + 19 >= Two(256) ==> QuickReduce(QuickReduce(v)) == v
  {
    hide Two;
    Two256();
  }

  lemma Two256()
    ensures Two(256) == 2 * TOP
  {
    Two255();
    TwoAdd(255, 1);
  }

  lemma ValSingle(s: seq<int32>)
    requires |s| == 10 && 0 <= s[0] < 10 && forall k :: 1 <= k < 10 ==> s[k] == 0
    ensures Canonical(s) && Val(s) == s[0] as int
  {
    hide Weight;
    ValEmpty();
    ValPrefix(s, 0);
    ValSplit(s, 1);
    ValZero(s[1..]);
    assert s[..0] == [] && s[..1] == s[..0 + 1];
  }

  lemma XBound(k: int, u: int)
    ensures X25519(k, u) == FMul(Ladder(k, u).x2, Pow(Ladder(k, u).z2, P - 2) % P)
    ensures 0 <= X25519(k, u) < P && P < Two(256)
  {
    hide Ladder, Pow;
    Two256();
  }

  lemma IsValue(s: seq<int32>, ok: bool, v: int)
    requires Is(s, ok, v)
    ensures Bounded(s) && |s| == 10 && (ok ==> Val(s) == v)
  {
  }

  // One trial subtraction is a reduction for every value below 2p.
  lemma QuickReduceOnce(v: int)
    requires 0 <= v < 2 * P
    ensures QuickReduce(v) == v % P
  {
  }

  lemma Row(v: int, sum: int, y: int, w: int)
    ensures v * (sum + y * w) == v * sum + (v * y) * w
    ensures (sum + y * w) * v == sum * v + y * w * v
  {
  }

  lemma RowStep(v: int, sum: int, y: int, wi: int, wj: int)
    ensures v * wi * (sum + y * wj) == v * wi * sum + (v * y) * (wi * wj)
  {
  }

  // Exclusive or with a masked x ^ y either swaps the two or leaves both alone.
  lemma SwapStep(mask: int, x: nat, y: nat)
    requires mask == 0 || mask == -1
    ensures var dummy := And(mask, Xor(x, y));
            && Xor(x, dummy) == (if mask == -1 then y else x)
            && Xor(y, dummy) == (if mask == -1 then x else y)
  {
    hide And, Xor;
    AndMask(Xor(x, y));
    XorZero(x);
    XorZero(y);
    XorCommutes(x, y);
    XorCancels(x, y);
    XorCancels(y, x);
  }

  lemma XorOfBits(a: nat, b: nat)
    requires a < 2 && b < 2
    ensures Xor(a, b) == (a + b) % 2
  {
    assert Xor(0, 0) == 0;
  }

  lemma A24Range(v: int)
    requires 0 <= v < Weight(10)
    ensures v < P ==> A24 * v < TOP * TOP && A24 * v < TOP * Weight(1)
  {
    hide Weight;
    Weights();
  }

  // What add makes of any two ten-limb numbers: a carry out of the top limb is dropped, and 19 is tried once.
  function Sum(u: int, v: int): int {
    QuickReduce((u + v) % Weight(10))
  }

  lemma AddValue(u: int, v: int, sum: int, carry: int)
    requires 0 <= u && 0 <= v && 0 <= sum && 0 <= carry
    requires sum + carry * Weight(10) == u + v
    ensures sum < Weight(10) ==> QuickReduce(sum) == Sum(u, v)
    ensures u < P && v < P ==> sum == u + v && QuickReduce(sum) == (u + v) % P
  {
    hide Weight, QuickReduce;
    if sum < Weight(10) {
      DivModUnique(u + v, carry, sum, Weight(10));
    }
    if u < P && v < P {
      Weight10();
      NoCarry(sum, carry, Weight(10), u + v);
      QuickReduceOnce(sum);
    }
  }

  // What sub makes of any two ten-limb numbers: a borrow out of the top limb takes 19 more off, and 255 bits are kept.
  function Difference(u: int, v: int): int {
    (u - v - if u < v then 19 else 0) % TOP
  }

  lemma SubValue(u: int, v: int, first: int, b: int, second: int, b': int)
    requires 0 <= first < Weight(10) && -1 <= b <= 0
    requires first + b * Weight(10) == u - v
    requires second + b' * Weight(10) == first + 19 * b
    ensures second % TOP == Difference(u, v)
  {
    hide Weight;
    Weight10();
    assert b == -1 <==> u < v;
    Wraps(u - v + 19 * b, second, -32 * (b + b'), TOP);
  }

  lemma Wraps(a: int, b: int, n: int, m: int)
    requires m > 0 && b == a + n * m
    ensures b % m == a % m
  {
    DivModUnique(b, a / m + n, a % m, m);
  }

  // The difference modulo p is right if and only if it is from -p up and below 2^255.
  lemma DifferenceExact(u: int, v: int)
    requires 0 <= u < Weight(10) && 0 <= v < Weight(10)
    ensures Difference(u, v) % P == (u - v) % P <==> -P <= u - v < TOP
  {
    hide Weight;
    Weight10();
    var d, c := u - v, if u < v then 1 else 0;
    var q := (d - 19 * c) / TOP;
    Quotients(d, c);
    assert Difference(u, v) == d - 19 * (c + q) - q * P;
    Wraps(d - 19 * (c + q), Difference(u, v), -q, P);
    SmallMultiple(d, c + q);
  }

  lemma Quotients(d: int, c: int)
    requires -32 * TOP < d < 32 * TOP && c == if d < 0 then 1 else 0
    ensures -33 <= (d - 19 * c) / TOP <= 32
    ensures c + (d - 19 * c) / TOP == 0 <==> -P <= d < TOP
  {
  }

  // As it is for canonical numbers, for which the result is canonical too.
  lemma DifferenceCanonical(u: int, v: int)
    requires 0 <= u < P && 0 <= v < P
    ensures Difference(u, v) == (u - v) % P
  {
    if u < v {
      Wraps(u - v + P, u - v, -1, P);
    }
  }

  lemma SmallMultiple(d: int, k: int)
    requires -40 <= k <= 40
    ensures (d - 19 * k) % P == d % P <==> k == 0
  {
    if (d - 19 * k) % P == d % P {
      var n := d / P - (d - 19 * k) / P;
      assert 19 * k == n * P;
    }
  }

  // The nineteen coordinates that eval does not reduce: the ladder's first addition is right, and its first
  // subtraction takes 19 too much off.
  lemma FirstOperations(v: nat)
    requires Two(256) - 19 <= v < Two(256)
    ensures QuickReduce(QuickReduce(v)) == v
    ensures Sum(v, 1) == v + 1
    ensures Difference(v, 1) == v - 1 - TOP && Difference(v, 1) % P == (v - 1 - 19) % P != (v - 1) % P
  {
    hide Two, Weight;
    TrialSubtractionsReduce(v);
    Two256();
    Weight10();
    ModIdem(v + 1, Weight(10));
    Wraps(v - 20, Difference(v, 1), -1, P);
    SmallMultiple(v - 1, 1);
  }

  // Bit 254 of a clamped scalar is set.
  lemma HighestBit(b: int)
    ensures Bit(Or(b, 0x40), 6) == 1
  {
    hide Or;
    assert Two(6) == 64;
    BitOr(b, 0x40, 6);
  }

  // A product of two ten-limb numbers fits twenty limbs; one of two canonical numbers is below 2^510.
  lemma ProductRange(u: int, v: int)
    requires 0 <= u < Weight(10) && 0 <= v < Weight(10)
    ensures 0 <= u * v < Weight(20)
    ensures u < P && v < P ==> u * v < TOP * TOP && u * v < TOP * Weight(10)
  {
    hide Weight;
    WeightAdd(10, 10);
    Weight10();
    MulMono(0, u, v);
    ProductBelow(u, v, Weight(10));
    if u < P && v < P {
      ProductBelow(u, v, TOP);
    }
  }

  lemma ProductBelow(u: int, v: int, w: int)
    requires 0 <= u < w && 0 <= v < w
    ensures u * v < w * w
  {
    MulMono(u, w, v);
    if u * v == w * w {
      MulMono(v, w - 1, w);
    }
  }

  // Dropping a carry out of 2^260 changes neither bit 255 nor the bits below it.
  lemma QuickReduceCarry(v: int, sum: int, carry: int)
    requires sum + carry * Weight(10) == 19 + v
    ensures (sum / TOP) % 2 == ((v + 19) / TOP) % 2
    ensures sum % TOP == (v + 19) % TOP
  {
    hide Weight;
    Weight10();
    TopBits(v + 19, sum, carry, TOP);
  }

  lemma TopBits(v: int, sum: int, carry: int, t: int)
    requires t > 0 && sum + carry * (32 * t) == v
    ensures (sum / t) % 2 == (v / t) % 2 && sum % t == v % t
  {
    var q := sum / t;
    assert carry * (32 * t) == (32 * carry) * t;
    DivModUnique(v, q + 32 * carry, sum % t, t);
    Even(q, 16 * carry);
  }

  lemma Even(q: int, k: int)
    ensures (q + 2 * k) % 2 == q % 2
  {
  }
}
