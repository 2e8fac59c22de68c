/**
  Numbers held as little-endian sequences of 26-bit limbs, and what carrying does to their value.
 */
module Limbs {
  import opened ModArith
  import opened JavaInt
  import opened Rfc7748

  const LIMB := 0x400_0000

  // The weight of limb i.
  function Weight(i: nat): (r: nat)
    ensures r > 0
  {
    Two(26 * i)
  }

  function Val(s: seq<int32>): int {
    if |s| == 0 then 0 else Val(s[..|s| - 1]) + (s[|s| - 1] as int) * Weight(|s| - 1)
  }

  // The value of the unreduced 64-bit sums of a schoolbook product.
  function LongVal(s: seq<int64>): int {
    if |s| == 0 then 0 else LongVal(s[..|s| - 1]) + (s[|s| - 1] as int) * Weight(|s| - 1)
  }

  ghost predicate Bounded(s: seq<int32>) {
    forall i :: 0 <= i < |s| ==> 0 <= s[i] < 0x400_0000
  }

  ghost predicate Canonical(s: seq<int32>) {
    |s| == 10 && Bounded(s) && Val(s) < P
  }

  lemma Two26()
    ensures Two(26) == LIMB
  {
    TwoAdd(13, 13);
  }

  lemma TwoDoubled(n: nat, v: int)
    requires Two(n) == v
    ensures Two(2 * n) == v * v
  {
    TwoAdd(n, n);
  }

  lemma Two104()
    ensures Two(104) == 0x100_0000_0000_0000_0000_0000_0000
  {
    Two26();
    TwoDoubled(26, LIMB);
    TwoDoubled(52, 0x10_0000_0000_0000);
  }

  lemma Two255()
    ensures Two(255) == TOP
  {
    Two104();
    TwoDoubled(104, 0x100_0000_0000_0000_0000_0000_0000);
    TwoAdd(208, 47);
    Two47();
  }

  lemma Two47()
    ensures Two(47) == 0x8000_0000_0000
  {
    Two26();
    TwoAdd(26, 21);
  }

  lemma WeightStep(i: nat)
    ensures Weight(i + 1) == Weight(i) * LIMB
  {
    Two26();
    TwoAdd(26 * i, 26);
  }

  lemma Weight10()
    ensures Weight(10) == 32 * TOP
  {
    Weights();
  }

  lemma Weights()
    ensures Weight(0) == 1 && Weight(1) == LIMB
    ensures Weight(9) * 0x20_0000 == TOP && Weight(10) == 32 * TOP
  {
    Two26();
    Two255();
    TwoAdd(255, 5);
    TwoAdd(234, 21);
  }

  lemma ValEmpty()
    ensures Val([]) == 0 && LongVal([]) == 0 && Weight(0) == 1
  {
  }

  lemma ValSnoc(s: seq<int32>, x: int32)
    ensures Val(s + [x]) == Val(s) + (x as int) * Weight(|s|)
  {
    assert (s + [x])[..|s|] == s;
  }

  lemma LongSnoc(s: seq<int64>, x: int64)
    ensures LongVal(s + [x]) == LongVal(s) + (x as int) * Weight(|s|)
  {
    assert (s + [x])[..|s|] == s;
  }

  lemma {:induction false} ValBounds(s: seq<int32>)
    requires Bounded(s)
    ensures 0 <= Val(s) < Weight(|s|)
  {
    if |s| == 0 {
    } else {
      var n := |s| - 1;
      ValBounds(s[..n]);
      WeightStep(n);
      MulMono(0, s[n] as int, Weight(n));
      MulMono(s[n] as int, LIMB - 1, Weight(n));
    }
  }

  lemma {:induction false} ValSplit(s: seq<int32>, k: nat)
    requires k <= |s|
    ensures Val(s) == Val(s[..k]) + Weight(k) * Val(s[k..])
    decreases |s|
  {
    hide Val, Weight;
    if k == |s| {
      assert s[..k] == s && s[k..] == [];
      ValEmpty();
    } else {
      var n := |s| - 1;
      ValSplit(s[..n], k);
      assert s[..n][..k] == s[..k] && s[..n][k..] == s[k..n];
      ValPrefix(s, n);
      assert s[..n + 1] == s;
      ValPrefix(s[k..], n - k);
      assert s[k..][..n - k] == s[k..n] && s[k..][..n - k + 1] == s[k..];
      WeightAdd(k, n - k);
      SplitStep(Val(s[..k]), Val(s[k..n]), s[n] as int, Weight(k), Weight(n - k));
    }
  }

  lemma WeightAdd(k: nat, n: nat)
    ensures Weight(k + n) == Weight(k) * Weight(n)
  {
    TwoAdd(26 * k, 26 * n);
  }

  lemma SplitStep(low: int, high: int, x: int, w: int, v: int)
    ensures low + w * high + x * (w * v) == low + w * (high + x * v)
  {
  }

  lemma {:induction false} LongUpdate(s: seq<int64>, k: nat, v: int64)
    requires k < |s|
    ensures LongVal(s[k := v]) == LongVal(s) + (v as int - s[k] as int) * Weight(k)
    decreases |s|
  {
    var n := |s| - 1;
    var t := s[k := v];
    if k == n {
      assert t[..n] == s[..n];
    } else {
      LongUpdate(s[..n], k, v);
      assert t[..n] == s[..n][k := v];
    }
  }

  lemma {:induction false} ValUpdate(s: seq<int32>, k: nat, v: int32)
    requires k < |s|
    ensures Val(s[k := v]) == Val(s) + (v as int - s[k] as int) * Weight(k)
    decreases |s|
  {
    var n := |s| - 1;
    var t := s[k := v];
    if k == n {
      assert t[..n] == s[..n];
    } else {
      ValUpdate(s[..n], k, v);
      assert t[..n] == s[..n][k := v];
    }
  }

  // One step of carrying: add goes in at position |done|, the low 26 bits stay and the rest moves up.
  lemma CarryStep(done: seq<int32>, limb: int32, carry: int, add: int)
    requires limb as int == (carry + add) % LIMB
    ensures Val(done + [limb]) + ((carry + add) / LIMB) * Weight(|done| + 1)
         == Val(done) + carry * Weight(|done|) + add * Weight(|done|)
  {
    WeightStep(|done|);
    ValSnoc(done, limb);
    Redistribute((carry + add) / LIMB, (carry + add) % LIMB, carry, add, Weight(|done|));
  }

  lemma Redistribute(q: int, r: int, carry: int, add: int, w: int)
    requires carry + add == q * LIMB + r
    ensures r * w + q * (w * LIMB) == carry * w + add * w
  {
    assert (carry + add) * w == (q * LIMB + r) * w;
  }

  lemma ValPrefix(s: seq<int32>, i: nat)
    requires i < |s|
    ensures s[..i + 1] == s[..i] + [s[i]]
    ensures Val(s[..i + 1]) == Val(s[..i]) + (s[i] as int) * Weight(i)
  {
    ValSnoc(s[..i], s[i]);
    assert s[..i + 1] == s[..i] + [s[i]];
  }

  lemma LongPrefix(s: seq<int64>, i: nat)
    requires i < |s|
    ensures s[..i + 1] == s[..i] + [s[i]]
    ensures LongVal(s[..i + 1]) == LongVal(s[..i]) + (s[i] as int) * Weight(i)
  {
    LongSnoc(s[..i], s[i]);
    assert s[..i + 1] == s[..i] + [s[i]];
  }

  // Equal numbers of limbs in range with equal values are equal.
  lemma {:induction false} ValInjective(s: seq<int32>, t: seq<int32>)
    requires |s| == |t| && Bounded(s) && Bounded(t)
    requires Val(s) == Val(t)
    ensures s == t
  {
    if |s| > 0 {
      var n := |s| - 1;
      ValBounds(s[..n]);
      ValBounds(t[..n]);
      DivModUnique(Val(s), s[n] as int, Val(s[..n]), Weight(n));
      DivModUnique(Val(t), t[n] as int, Val(t[..n]), Weight(n));
      ValInjective(s[..n], t[..n]);
      assert s == s[..n] + [s[n]] && t == t[..n] + [t[n]];
    }
  }

  // Bit 255 of a ten-limb number is bit 21 of its top limb, and clearing the bits from there up keeps the rest.
  lemma TopSplit(s: seq<int32>)
    requires |s| == 10 && Bounded(s)
    ensures Val(s) / TOP == (s[9] as int) / 0x20_0000
    ensures Val(s[9 := s[9] % 0x20_0000]) == Val(s) % TOP
    ensures Val(s[9 := s[9] % 0x20_0000]) == Val(s) - ((s[9] as int) / 0x20_0000) * TOP
    ensures Bounded(s[9 := s[9] % 0x20_0000])
  {
    var q, r := s[9] as int / 0x20_0000, s[9] as int % 0x20_0000;
    var t := s[9 := s[9] % 0x20_0000];
    var w := Weight(9);
    assert t[..9] == s[..9];
    Weights();
    ValBounds(s[..9]);
    MulMono(0, r, w);
    MulMono(r, 0x20_0000 - 1, w);
    assert Val(t) == Val(s[..9]) + r * w;
    assert Val(s) == Val(t) + q * TOP by {
      assert s[9] as int == q * 0x20_0000 + r;
      assert (q * 0x20_0000 + r) * w == q * (0x20_0000 * w) + r * w;
    }
    DivModUnique(Val(s), q, Val(t), TOP);
  }
}
