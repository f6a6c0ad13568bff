/** The exact binomial test behind the cache-affinity check, over the reals. */
module CacheAffinity {
  import Exact

  // ----- n choose k -----

  function Choose(n: nat, k: nat): nat {
    if k == 0 then 1 else if n == 0 then 0 else Choose(n - 1, k - 1) + Choose(n - 1, k)
  }

  lemma {:induction false} ChooseBeyond(n: nat, k: nat)
    requires k > n
    ensures Choose(n, k) == 0
  {
    if n > 0 {
      ChooseBeyond(n - 1, k - 1);
      ChooseBeyond(n - 1, k);
    }
  }

  lemma Expand(a: nat, b: nat, c: nat)
    ensures (a + b) * c == a * c + b * c && a * (b + c) == a * b + a * c
  {}

  /** Pascal's rule carries the next-in-row law from one row to the next. */
  lemma RowStep(n: nat, i: nat, a: nat, b: nat, c: nat)
    requires i < n && a * (n - 1 - i) == b * (i + 1) && c * (n - i) == a * i
    ensures (c + a) * (n - i) == (a + b) * (i + 1)
  {
    Expand(c, a, n - i);
    Expand(a, b, i + 1);
    Expand(a, i, n - i);
    Expand(a, i + 1, n - 1 - i);
    assert i + (n - i) == i + 1 + (n - 1 - i);
  }

  /** The next coefficient of a row, without a division. */
  lemma {:induction false} NextInRow(n: nat, i: nat)
    requires i < n
    ensures Choose(n, i) * (n - i) == Choose(n, i + 1) * (i + 1)
  {
    if i + 1 < n {
      NextInRow(n - 1, i);
    } else {
      ChooseBeyond(n - 1, i + 1);
    }
    if i > 0 {
      NextInRow(n - 1, i - 1);
      RowStep(n, i, Choose(n - 1, i), Choose(n - 1, i + 1), Choose(n - 1, i - 1));
    }
  }

  lemma {:induction false} Symmetric(n: nat, k: nat)
    requires k <= n
    ensures Choose(n, k) == Choose(n, n - k)
  {
    if 0 < k < n {
      Symmetric(n - 1, k - 1);
      Symmetric(n - 1, k);
    } else {
      ChooseBeyond(n, n + 1);
      AllOfThem(n);
    }
  }

  lemma {:induction false} AllOfThem(n: nat)
    ensures Choose(n, n) == 1
  {
    if n > 0 {
      AllOfThem(n - 1);
      ChooseBeyond(n - 1, n);
    }
  }

  lemma DividesOut(product: nat, d: nat, q: nat)
    requires d > 0 && product == q * d
    ensures product % d == 0 && product / d == q
  {
    Exact.Quotient(d, q);
  }

  lemma NextIsExact(n: nat, i: nat)
    requires i < n
    ensures Choose(n, i) * (n - i) % (i + 1) == 0 && Choose(n, i) * (n - i) / (i + 1) == Choose(n, i + 1)
  {
    NextInRow(n, i);
    DividesOut(Choose(n, i) * (n - i), i + 1, Choose(n, i + 1));
  }

  /** `_comb`: every floor division is exact, and the loop returns n choose k. */
  method Comb(n: int, k: int) returns (result: nat)
    ensures result == if 0 <= k <= n then Choose(n, k) else 0
  {
    if k < 0 || k > n { return 0; }
    var m := if k < n - k then k else n - k;
    Symmetric(n, k);
    result := 1;
    var i := 0;
    while i < m
      invariant 0 <= i <= m && result == Choose(n, i)
    {
      NextIsExact(n, i);
      assert result * (n - i) % (i + 1) == 0;
      result := result * (n - i) / (i + 1);
      i := i + 1;
    }
  }

  // ----- the tail of the binomial distribution -----

  function Pow(p: real, i: nat): real {
    if i == 0 then 1.0 else p * Pow(p, i - 1)
  }

  function Product(c: real, x: real, y: real): real {
    c * x * y
  }

  /** Probability of exactly i successes, as the code computes it. */
  function Term(n: nat, i: nat, p: real): real
    requires i <= n
  {
    Product(Choose(n, i) as real, Pow(p, i), Pow(1.0 - p, n - i))
  }

  /** `binomial_sf`: the sum of the terms k, ..., n. */
  function BinomialSf(n: nat, k: nat, p: real): real
    decreases n + 1 - k
  {
    if k > n then 0.0 else Term(n, k, p) + BinomialSf(n, k + 1, p)
  }

  /** An event with probability a after a success and b after a failure. */
  function Blend(p: real, a: real, b: real): real {
    p * a + (1.0 - p) * b
  }

  /** Probability of at least k successes in n independent trials, by the outcome of the first trial. */
  function AtLeast(n: nat, k: nat, p: real): real {
    if k == 0 then 1.0 else if n == 0 then 0.0 else Blend(p, AtLeast(n - 1, k - 1, p), AtLeast(n - 1, k, p))
  }

  lemma TermAlgebra(p: real, q: real, a: real, b: real, c: real, x: real, x': real, y: real, y': real)
    requires q == 1.0 - p && c == a + b && x == p * x' && y == q * y'
    ensures Product(c, x, y) == Blend(p, Product(a, x', y), Product(b, x, y'))
  {
    assert c * x * y == a * x * y + b * x * y;
    assert a * (p * x') * y == p * (a * x' * y);
    assert b * x * (q * y') == q * (b * x * y');
  }

  /** A term by the outcome of the first trial. */
  lemma TermSplits(n: nat, i: nat, p: real)
    requires 0 < i < n
    ensures Term(n, i, p) == Blend(p, Term(n - 1, i - 1, p), Term(n - 1, i, p))
  {
    TermAlgebra(p, 1.0 - p, Choose(n - 1, i - 1) as real, Choose(n - 1, i) as real, Choose(n, i) as real,
                Pow(p, i), Pow(p, i - 1), Pow(1.0 - p, n - i), Pow(1.0 - p, n - 1 - i));
  }

  lemma LastTermSplits(n: nat, p: real)
    requires 0 < n
    ensures Term(n, n, p) == Blend(p, Term(n - 1, n - 1, p), 0.0)
  {
    ChooseBeyond(n - 1, n);
    var c, x := Choose(n, n) as real, Pow(p, n - 1);
    assert Product(c, p * x, 1.0) == Blend(p, Product(c, x, 1.0), 0.0);
  }

  lemma BlendSum(p: real, a: real, b: real, c: real, d: real, x: real, y: real)
    requires x == Blend(p, a, b) && y == Blend(p, c, d)
    ensures x + y == Blend(p, a + c, b + d)
  {}

  /** The tail sum by the outcome of the first trial. */
  lemma {:induction false} SfSplits(n: nat, k: nat, p: real)
    requires 0 < k && 0 < n
    ensures BinomialSf(n, k, p) == Blend(p, BinomialSf(n - 1, k - 1, p), BinomialSf(n - 1, k, p))
    decreases n + 1 - k
  {
    if k <= n {
      SfSplits(n, k + 1, p);
      if k < n { TermSplits(n, k, p); } else { LastTermSplits(n, p); }
      var rest := if k < n then Term(n - 1, k, p) else 0.0;
      BlendSum(p, Term(n - 1, k - 1, p), rest, BinomialSf(n - 1, k, p), BinomialSf(n - 1, k + 1, p), Term(n, k, p),
               BinomialSf(n, k + 1, p));
    }
  }

  /** w and s are the first term and the rest of the sum for one trial less. */
  lemma Complement(p: real, w: real, s: real, first: real, rest: real)
    requires w + s == 1.0 && first == Blend(p, 0.0, w) && rest == Blend(p, 1.0, s)
    ensures first + rest == 1.0
  {
    BlendSum(p, 0.0, w, 1.0, s, first, rest);
    assert first + rest == Blend(p, 0.0 + 1.0, w + s);
    BlendOfOnes(p, w + s);
  }

  lemma BlendOfOnes(p: real, b: real)
    requires b == 1.0
    ensures Blend(p, 0.0 + 1.0, b) == 1.0
  {}

  lemma NextPow(p: real, n: nat)
    requires n > 0
    ensures Pow(1.0 - p, n) == Blend(p, 0.0, Pow(1.0 - p, n - 1))
  {}

  lemma FirstTerm(n: nat, p: real)
    ensures BinomialSf(n, 0, p) == Pow(1.0 - p, n) + BinomialSf(n, 1, p)
  {
    assert Term(n, 0, p) == 1.0 * 1.0 * Pow(1.0 - p, n);
  }

  lemma SfAtZero(n: nat, p: real)
    requires n > 0 && BinomialSf(n - 1, 0, p) == 1.0
    ensures BinomialSf(n, 0, p) == 1.0
  {
    FirstTerm(n, p);
    FirstTerm(n - 1, p);
    SfSplits(n, 1, p);
    NextPow(p, n);
    Complement(p, Pow(1.0 - p, n - 1), BinomialSf(n - 1, 1, p), Pow(1.0 - p, n), BinomialSf(n, 1, p));
  }

  /** The sum that the code computes is the probability of at least k successes. */
  lemma {:induction false} SfIsAtLeast(n: nat, k: nat, p: real)
    ensures BinomialSf(n, k, p) == AtLeast(n, k, p)
  {
    if n == 0 {
      assert k == 0 ==> BinomialSf(0, 0, p) == Term(0, 0, p) + BinomialSf(0, 1, p);
    } else if k == 0 {
      SfIsAtLeast(n - 1, 0, p);
      SfAtZero(n, p);
    } else {
      SfIsAtLeast(n - 1, k - 1, p);
      SfIsAtLeast(n - 1, k, p);
      SfSplits(n, k, p);
    }
  }

  lemma Mix(p: real, a: real, b: real, c: real, d: real)
    requires 0.0 <= p <= 1.0 && a <= c && b <= d
    ensures Blend(p, a, b) <= Blend(p, c, d)
  {
    assert p * (c - a) >= 0.0;
    assert (1.0 - p) * (d - b) >= 0.0;
  }

  lemma MixInRange(p: real, a: real, b: real, x: real)
    requires 0.0 <= p <= 1.0 && 0.0 <= a <= 1.0 && 0.0 <= b <= 1.0 && x == Blend(p, a, b)
    ensures 0.0 <= x <= 1.0
  {
    Mix(p, 0.0, 0.0, a, b);
    Mix(p, a, b, 1.0, 1.0);
  }

  lemma MixFalls(p: real, a: real, b: real, c: real, x: real, y: real)
    requires 0.0 <= p <= 1.0 && c <= b <= a && x == Blend(p, b, c) && y == Blend(p, a, b)
    ensures x <= y
  {
    Mix(p, b, c, a, b);
  }

  lemma {:induction false} AtLeastInRange(n: nat, k: nat, p: real)
    requires 0.0 <= p <= 1.0
    ensures 0.0 <= AtLeast(n, k, p) <= 1.0
  {
    if n > 0 && k > 0 {
      AtLeastInRange(n - 1, k - 1, p);
      AtLeastInRange(n - 1, k, p);
      MixInRange(p, AtLeast(n - 1, k - 1, p), AtLeast(n - 1, k, p), AtLeast(n, k, p));
    }
  }

  lemma {:induction false} AtLeastFalls(n: nat, k: nat, p: real)
    requires 0.0 <= p <= 1.0
    ensures AtLeast(n, k + 1, p) <= AtLeast(n, k, p)
  {
    if k == 0 {
      AtLeastInRange(n, 1, p);
    } else if n > 0 {
      AtLeastFalls(n - 1, k - 1, p);
      AtLeastFalls(n - 1, k, p);
      MixFalls(p, AtLeast(n - 1, k - 1, p), AtLeast(n - 1, k, p), AtLeast(n - 1, k + 1, p), AtLeast(n, k + 1, p),
               AtLeast(n, k, p));
    }
  }

  /** `binomial_sf` is 1 at k = 0, lies in [0, 1] and never rises with k. */
  lemma {:induction false} SfIsATail(n: nat, k: nat, k': nat, p: real)
    requires 0.0 <= p <= 1.0 && k <= k'
    ensures BinomialSf(n, 0, p) == 1.0
    ensures 0.0 <= BinomialSf(n, k', p) <= BinomialSf(n, k, p) <= 1.0
    decreases k' - k
  {
    SfIsAtLeast(n, 0, p);
    SfIsAtLeast(n, k, p);
    SfIsAtLeast(n, k', p);
    AtLeastInRange(n, k, p);
    AtLeastInRange(n, k', p);
    AtLeastFalls(n, k, p);
    if k < k' {
      SfIsATail(n, k + 1, k', p);
      SfIsAtLeast(n, k + 1, p);
    }
  }

  // ----- the verdict -----

  /** A repeat is a hit when more than half of its prompt was cached. */
  predicate IsHit(cached: nat, cold: nat) {
    cached as real > 0.5 * cold as real
  }

  predicate Indexes(order: seq<nat>, n: nat) {
    forall k | 0 <= k < |order| :: order[k] < n
  }

  /** The hits among the repeats of the prompts `order`, where prompt i has cold[i] tokens and cached(i) of
      them cached. */
  function Hits(order: seq<nat>, cached: nat -> nat, cold: seq<nat>): nat
    requires Indexes(order, |cold|)
  {
    if order == [] then 0
    else
      var last := order[|order| - 1];
      Hits(order[..|order| - 1], cached, cold) + if IsHit(cached(last), cold[last]) then 1 else 0
  }

  /** The repeats of which more than half the prompt was cached. */
  ghost function HitSet(order: seq<nat>, cached: nat -> nat, cold: seq<nat>): set<nat>
    requires Indexes(order, |cold|)
  {
    set j: nat | j < |order| && 2 * cached(order[j]) > cold[order[j]]
  }

  lemma {:induction false} HitsAreCounted(order: seq<nat>, cached: nat -> nat, cold: seq<nat>)
    requires Indexes(order, |cold|)
    ensures Hits(order, cached, cold) == |HitSet(order, cached, cold)|
  {
    if order != [] {
      var k := |order| - 1;
      HitsAreCounted(order[..k], cached, cold);
      var before := HitSet(order[..k], cached, cold);
      assert HitSet(order, cached, cold)
          == if 2 * cached(order[k]) > cold[order[k]] then before + {k} else before;
    }
  }

  predicate Passes(n: nat, hits: nat, workers: nat, alpha: real)
    requires workers > 0
  {
    BinomialSf(n, hits, 1.0 / workers as real) < alpha
  }

  /** The verdict of `check_cache_affinity` on the answers to the repeats. */
  method CheckCacheAffinity(order: seq<nat>, cached: nat -> nat, cold: seq<nat>, workers: nat, alpha: real)
    returns (hits: nat, pass: bool)
    requires workers > 0 && 0 < |order| == |cold| && Indexes(order, |cold|)
    ensures hits == |HitSet(order, cached, cold)| <= |order|
    ensures pass <==> AtLeast(|order|, hits, 1.0 / workers as real) < alpha
  {
    hits := 0;
    var j := 0;
    while j < |order|
      invariant 0 <= j <= |order|
      invariant hits == Hits(order[..j], cached, cold) && hits <= j
    {
      assert order[..j + 1][..j] == order[..j];
      if IsHit(cached(order[j]), cold[order[j]]) { hits := hits + 1; }
      j := j + 1;
    }
    assert order[..|order|] == order;
    HitsAreCounted(order, cached, cold);
    SfIsAtLeast(|order|, hits, 1.0 / workers as real);
    var baseline := 1.0 / workers as real;
    var pValue := BinomialSf(|order|, hits, baseline);
    pass := !(pValue >= alpha);
  }

  lemma BaselineOk(workers: nat)
    requires workers > 0
    ensures 0.0 < 1.0 / workers as real <= 1.0
    ensures workers == 1 ==> 1.0 / workers as real == 1.0
  {}

  /** More hits never turn a pass into a failure. */
  lemma VerdictIsMonotone(n: nat, hits: nat, hits': nat, workers: nat, alpha: real)
    requires workers > 0 && hits <= hits' && Passes(n, hits, workers, alpha)
    ensures Passes(n, hits', workers, alpha)
  {
    BaselineOk(workers);
    SfIsATail(n, hits, hits', 1.0 / workers as real);
  }

  lemma {:induction false} AlwaysSucceeds(n: nat, k: nat)
    requires k <= n
    ensures AtLeast(n, k, 1.0) == 1.0
  {
    if k > 0 {
      AlwaysSucceeds(n - 1, k - 1);
    }
  }

  /** With a single worker no number of hits passes. */
  lemma OneWorkerNeverPasses(n: nat, hits: nat, alpha: real)
    requires hits <= n && alpha <= 1.0
    ensures !Passes(n, hits, 1, alpha)
  {
    BaselineOk(1);
    SfIsAtLeast(n, hits, 1.0);
    AlwaysSucceeds(n, hits);
  }

  lemma {:induction false} AllSucceed(n: nat, p: real)
    ensures AtLeast(n, n, p) == Pow(p, n) && AtLeast(n, n + 1, p) == 0.0
  {
    if n > 0 {
      AllSucceed(n - 1, p);
      TooMany(n - 1, n + 1, p);
    }
  }

  lemma {:induction false} TooMany(n: nat, k: nat, p: real)
    requires k > n
    ensures AtLeast(n, k, p) == 0.0
  {
    if n > 0 {
      TooMany(n - 1, k - 1, p);
      TooMany(n - 1, k, p);
    }
  }

  /** Some hit count passes exactly when (1 / workers) to the number of prompts is below alpha. */
  lemma CanPassIff(n: nat, workers: nat, alpha: real)
    requires workers > 0
    ensures (exists hits | 0 <= hits <= n :: Passes(n, hits, workers, alpha)) <==> Pow(1.0 / workers as real, n) < alpha
  {
    var p := 1.0 / workers as real;
    SfIsAtLeast(n, n, p);
    AllSucceed(n, p);
    if hits :| 0 <= hits <= n && Passes(n, hits, workers, alpha) {
      VerdictIsMonotone(n, hits, n, workers, alpha);
    }
    if Pow(p, n) < alpha {
      assert Passes(n, n, workers, alpha);
    }
  }

  // ----- the shuffle -----

  lemma Removed(order: seq<nat>, k: nat)
    requires k + 1 < |order|
    ensures var rest, front := order[..k] + order[k + 1..], order[..|order| - 1];
            rest[..|rest| - 1] == front[..k] + front[k + 1..] && rest[|rest| - 1] == order[|order| - 1]
  {}

  lemma {:induction false} HitsWithout(order: seq<nat>, k: nat, cached: nat -> nat, cold: seq<nat>)
    requires k < |order| && Indexes(order, |cold|)
    ensures Indexes(order[..k] + order[k + 1..], |cold|)
    ensures Hits(order, cached, cold)
            == Hits(order[..k] + order[k + 1..], cached, cold)
               + if IsHit(cached(order[k]), cold[order[k]]) then 1 else 0
  {
    if k == |order| - 1 {
      assert order[..k] + order[k + 1..] == order[..k];
    } else {
      HitsWithout(order[..|order| - 1], k, cached, cold);
      Removed(order, k);
    }
  }

  lemma Without(b: seq<nat>, k: nat)
    requires k < |b|
    ensures multiset(b[..k] + b[k + 1..]) == multiset(b) - multiset{b[k]}
  {
    assert b == b[..k] + [b[k]] + b[k + 1..];
  }

  lemma SameRest(a: seq<nat>, b: seq<nat>, k: nat)
    requires a != [] && k < |b| && multiset(a) == multiset(b) && b[k] == a[|a| - 1]
    ensures multiset(a[..|a| - 1]) == multiset(b[..k] + b[k + 1..])
  {
    Without(a, |a| - 1);
    Without(b, k);
    assert a[..|a| - 1] + a[|a| - 1 + 1..] == a[..|a| - 1];
  }

  lemma PositionIn(b: seq<nat>, x: nat) returns (k: nat)
    requires x in multiset(b)
    ensures k < |b| && b[k] == x
  {
    k :| 0 <= k < |b| && b[k] == x;
  }

  /** The order in which the repeats are sent does not change the number of hits. */
  lemma {:induction false} HitsIgnoreOrder(a: seq<nat>, b: seq<nat>, cached: nat -> nat, cold: seq<nat>)
    requires multiset(a) == multiset(b) && Indexes(a, |cold|) && Indexes(b, |cold|)
    ensures Hits(a, cached, cold) == Hits(b, cached, cold)
  {
    if a == [] {
      assert |multiset(b)| == 0;
    } else {
      var last := |a| - 1;
      assert a[last] in multiset(a);
      var k := PositionIn(b, a[last]);
      SameRest(a, b, k);
      HitsWithout(b, k, cached, cold);
      HitsIgnoreOrder(a[..last], b[..k] + b[k + 1..], cached, cold);
    }
  }
}
