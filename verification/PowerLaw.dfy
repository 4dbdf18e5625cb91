/** `load_tests/common/distribution.py`: the weights of a power-law distribution, over the reals. */
module PowerLaw {

  function Min(a: nat, b: nat): nat {
    if a < b then a else b
  }

  /** The weight of item `i` of `n` before normalisation. */
  function Share(i: nat, n: nat): real
    requires i < n && n >= 2
  {
    if i == 0 then 0.35
    else if i < 5 then 0.43 / (Min(4, n - 1) as real)
    else if i < 10 then 0.12 / (Min(5, n - 5) as real)
    else if i < 20 then 0.06 / (Min(10, n - 10) as real)
    else 0.04 / ((n - 20) as real)
  }

  function Sum(s: seq<real>): real {
    if s == [] then 0.0 else Sum(s[..|s| - 1]) + s[|s| - 1]
  }

  /** What the shares of `n` items add up to: the tiers that exist. */
  function TierTotal(n: nat): real {
    0.78 + (if n > 5 then 0.12 else 0.0) + (if n > 10 then 0.06 else 0.0) + (if n > 20 then 0.04 else 0.0)
  }

  predicate AreShares(s: seq<real>, n: nat)
    requires n >= 2
  {
    |s| == n && forall i :: 0 <= i < n ==> s[i] == Share(i, n)
  }

  /** The weights for `n` items: shares of the whole. */
  predicate AreWeights(w: seq<real>, n: nat) {
    && |w| == n
    && (n == 1 ==> w == [1.0])
    && (n >= 2 ==> forall i :: 0 <= i < n ==> w[i] == Share(i, n) / TierTotal(n))
  }

  predicate NonIncreasing(w: seq<real>) {
    forall i, j :: 0 <= i < j < |w| ==> w[i] >= w[j]
  }

  method CalculateWeights(n: nat) returns (w: seq<real>)
    ensures AreWeights(w, n)
  {
    if n == 1 {
      return [1.0];
    }
    var weights := [];
    for i := 0 to n
      invariant |weights| == i
      invariant n >= 2 ==> forall j :: 0 <= j < i ==> weights[j] == Share(j, n)
    {
      if i == 0 {
        weights := weights + [0.35];
      } else if i < 5 {
        var share := 0.43 / (Min(4, n - 1) as real);
        weights := weights + [share];
      } else if i < 10 {
        var countInTier := Min(5, n - 5);
        var share := 0.12 / (countInTier as real);
        weights := weights + [share];
      } else if i < 20 {
        var countInTier := Min(10, n - 10);
        var share := 0.06 / (countInTier as real);
        weights := weights + [share];
      } else {
        var remainingCount := n - 20;
        var share := 0.04 / (remainingCount as real);
        weights := weights + [share];
      }
    }
    if n == 0 {
      return [];
    }
    SharesTotal(weights, n);
    var total := Sum(weights);
    w := seq(n, i requires 0 <= i < n => weights[i] / total);
  }

  // ---------------------------------------------------------------- sums

  lemma Cancel(c: real, k: nat)
    requires k > 0
    ensures (k as real) * (c / (k as real)) == c
  {
  }

  /** A run of equal elements. */
  lemma {:induction false} SumOfRun(s: seq<real>, lo: nat, hi: nat, x: real)
    requires lo <= hi <= |s| && forall i :: lo <= i < hi ==> s[i] == x
    ensures Sum(s[..hi]) == Sum(s[..lo]) + ((hi - lo) as real) * x
  {
    if lo < hi {
      assert s[..hi][..hi - 1] == s[..hi - 1];
      SumOfRun(s, lo, hi - 1, x);
      assert ((hi - lo) as real) * x == ((hi - 1 - lo) as real) * x + x;
    }
  }

  /** A tier of `k` items that share `c`, scaled by `t`. */
  lemma SumOfTier(s: seq<real>, lo: nat, hi: nat, c: real, t: real)
    requires lo < hi <= |s| && t > 0.0
    requires forall i :: lo <= i < hi ==> s[i] == c / ((hi - lo) as real) / t
    ensures Sum(s[..hi]) == Sum(s[..lo]) + c / t
  {
    SumOfRun(s, lo, hi, c / ((hi - lo) as real) / t);
    Cancel(c, hi - lo);
    var k := (hi - lo) as real;
    assert k * (c / k / t) == (k * (c / k)) / t;
  }

  lemma SharesByTier(n: nat)
    requires n >= 2
    ensures Share(0, n) == 0.35
    ensures forall i :: 1 <= i < Min(5, n) ==> Share(i, n) == 0.43 / ((Min(5, n) - 1) as real)
    ensures forall i :: 5 <= i < Min(10, n) ==> Share(i, n) == 0.12 / ((Min(10, n) - 5) as real)
    ensures forall i :: 10 <= i < Min(20, n) ==> Share(i, n) == 0.06 / ((Min(20, n) - 10) as real)
    ensures forall i :: 20 <= i < n ==> Share(i, n) == 0.04 / ((n - 20) as real)
  {
  }

  lemma FirstShare(s: seq<real>, x: real)
    requires s != [] && s[0] == x
    ensures Sum(s[..1]) == x
  {
    SumOfRun(s, 0, 1, x);
    assert s[..0] == [];
  }

  /** Every tier adds its part, whatever the number of items in it. */
  lemma TierSums(s: seq<real>, n: nat, t: real)
    requires n >= 2 && |s| == n && t > 0.0 && forall i :: 0 <= i < n ==> s[i] == Share(i, n) / t
    ensures Sum(s[..1]) == 0.35 / t
    ensures Sum(s[..Min(5, n)]) == 0.35 / t + 0.43 / t
    ensures n > 5 ==> Sum(s[..Min(10, n)]) == Sum(s[..5]) + 0.12 / t
    ensures n > 10 ==> Sum(s[..Min(20, n)]) == Sum(s[..10]) + 0.06 / t
    ensures n > 20 ==> Sum(s) == Sum(s[..20]) + 0.04 / t
  {
    hide Share, Sum;
    SharesByTier(n);
    FirstShare(s, 0.35 / t);
    assert s[..n] == s;
    SumOfTier(s, 1, Min(5, n), 0.43, t);
    if n > 5 {
      SumOfTier(s, 5, Min(10, n), 0.12, t);
    }
    if n > 10 {
      SumOfTier(s, 10, Min(20, n), 0.06, t);
    }
    if n > 20 {
      SumOfTier(s, 20, n, 0.04, t);
    }
  }

  /** The items of one tier weigh the same. */
  lemma TiersAreEven(w: seq<real>, n: nat)
    requires n >= 2 && AreWeights(w, n)
    ensures forall i, j :: 1 <= i < 5 && 1 <= j < 5 && i < n && j < n ==> w[i] == w[j]
    ensures forall i, j :: 5 <= i < 10 && 5 <= j < 10 && i < n && j < n ==> w[i] == w[j]
    ensures forall i, j :: 10 <= i < 20 && 10 <= j < 20 && i < n && j < n ==> w[i] == w[j]
    ensures forall i, j :: 20 <= i < n && 20 <= j < n ==> w[i] == w[j]
  {
  }

  lemma SharesTotal(s: seq<real>, n: nat)
    requires n >= 2 && AreShares(s, n)
    ensures Sum(s) == TierTotal(n)
  {
    hide Share, Sum;
    forall i | 0 <= i < n ensures s[i] == Share(i, n) / 1.0 {
      OverOne(s[i]);
    }
    TierSums(s, n, 1.0);
    OverOne(0.35);
    OverOne(0.43);
    OverOne(0.12);
    OverOne(0.06);
    OverOne(0.04);
    assert s[..n] == s;
  }

  lemma OverOne(x: real)
    ensures x / 1.0 == x
  {
  }

  // ---------------------------------------------------------------- the distribution

  /** The weights are positive and sum to 1. */
  lemma WeightsAreADistribution(w: seq<real>, n: nat)
    requires n >= 1 && AreWeights(w, n)
    ensures forall i :: 0 <= i < n ==> w[i] > 0.0
    ensures Sum(w) == 1.0
  {
    if n == 1 {
      assert [1.0][..0] == [];
    } else {
      forall i | 0 <= i < n ensures w[i] > 0.0 {
        assert Share(i, n) > 0.0;
      }
      TierSums(w, n, TierTotal(n));
      assert w[..n] == w;
      Parts(TierTotal(n));
    }
  }

  lemma Parts(t: real)
    requires t > 0.0
    ensures 0.35 / t + 0.43 / t == 0.78 / t
    ensures 0.78 / t + 0.12 / t == 0.90 / t && 0.90 / t + 0.06 / t == 0.96 / t && 0.96 / t + 0.04 / t == 1.0 / t
    ensures t / t == 1.0
  {
  }

  /** With more than 20 items the five tiers get exactly the documented percentages. */
  lemma TierPercentages(w: seq<real>, n: nat)
    requires n >= 21 && AreWeights(w, n)
    ensures Sum(w[..1]) == 0.35
    ensures Sum(w[..5]) - Sum(w[..1]) == 0.43
    ensures Sum(w[..10]) - Sum(w[..5]) == 0.12
    ensures Sum(w[..20]) - Sum(w[..10]) == 0.06
    ensures Sum(w) - Sum(w[..20]) == 0.04
  {
    TierSums(w, n, TierTotal(n));
  }

  /** An item never outweighs an earlier one, except for the sizes at which a tier has so few items
      that each of them gets more than an item of the tier before. */
  lemma NonIncreasingIff(w: seq<real>, n: nat)
    requires n >= 1 && AreWeights(w, n)
    ensures NonIncreasing(w) <==> n !in {2, 6, 11, 12} && !(21 <= n <= 26)
  {
    if n >= 2 {
      if n in {2, 6, 11, 12} || 21 <= n <= 26 {
        var first := if n == 2 then 1 else if n == 6 then 5 else if n < 20 then 10 else 20;
        StepUp(n);
        Scale(Share(first - 1, n), Share(first, n), TierTotal(n));
        assert w[first - 1] < w[first];
      } else {
        forall i, j | 0 <= i < j < n ensures w[i] >= w[j] {
          SharesFall(n, i, j);
          Scale(Share(j, n), Share(i, n), TierTotal(n));
        }
      }
    }
  }

  lemma Scale(a: real, b: real, t: real)
    requires t > 0.0
    ensures a < b ==> a / t < b / t
    ensures a <= b ==> a / t <= b / t
  {
  }

  lemma StepUp(n: nat)
    requires n in {2, 6, 11, 12} || 21 <= n <= 26
    ensures var first := if n == 2 then 1 else if n == 6 then 5 else if n < 20 then 10 else 20;
            Share(first - 1, n) < Share(first, n)
  {
  }

  lemma SharesFall(n: nat, i: nat, j: nat)
    requires i < j < n && n !in {2, 6, 11, 12} && !(21 <= n <= 26)
    ensures Share(i, n) >= Share(j, n)
  {
    if n > 5 { TierFalls(0.1075, 0.12, Min(5, n - 5)); }
    if n > 10 { TierFalls(0.024, 0.06, Min(10, n - 10)); }
    if n > 20 { TierFalls(0.006, 0.04, n - 20); }
    TierFalls(0.35, 0.43, Min(4, n - 1));
  }

  /** Enough items bring the share of a tier down to a bound. */
  lemma TierFalls(bound: real, c: real, k: nat)
    requires k > 0 && bound * (k as real) >= c
    ensures c / (k as real) <= bound
  {
  }
}
