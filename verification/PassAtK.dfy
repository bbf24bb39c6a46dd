/**
 The pass@k estimate of an evaluation (evaluation/pass.go:97-139), with the factorials that the
 code evaluates through their logarithms taken exactly, and the chance it stands for.
 */
module PassAtK {
  import opened Prelude

  datatype ArgumentError = NegativeRuns | KTooSmall | NegativeSuccesses | TooManySuccesses | KTooLarge

  function Factorial(n: nat): (r: nat)
    ensures r > 0
  {
    if n == 0 then 1 else Product(n, Factorial(n - 1))
  }

  /** A product of positive factors. */
  function Product(a: nat, b: nat): (r: nat)
    ensures r == a * b && (a > 0 && b > 0 ==> r > 0)
  {
    ProductPositive(a, b);
    a * b
  }

  lemma ProductPositive(a: nat, b: nat)
    ensures a * b >= 0 && (a > 0 && b > 0 ==> a * b > 0)
  {
  }

  /** PassAtK. */
  function PassAtK(n: int, c: int, k: int): Result<real, ArgumentError> {
    if n < 0 then Err(NegativeRuns)
    else if k <= 0 then Err(KTooSmall)
    else if c < 0 then Err(NegativeSuccesses)
    else if c > n then Err(TooManySuccesses)
    else if k > n then Err(KTooLarge)
    else if c == 0 then Ok(0.0)
    else if n - c < k then Ok(1.0)
    else
      var drawn := Product(Factorial(n - c), Factorial(n - k));
      var possible := Product(Factorial(n - c - k), Factorial(n));
      Ok(1.0 - drawn as real / possible as real)
  }

  predicate Valid(n: int, c: int, k: int) {
    0 <= c <= n && 1 <= k <= n
  }

  /** Which of several faulty arguments is reported. */
  lemma FirstFaultIsReported(n: int, c: int, k: int)
    ensures PassAtK(n, c, k) == Err(NegativeRuns) <==> n < 0
    ensures PassAtK(n, c, k) == Err(KTooSmall) <==> n >= 0 && k <= 0
    ensures PassAtK(n, c, k) == Err(NegativeSuccesses) <==> n >= 0 && k >= 1 && c < 0
    ensures PassAtK(n, c, k) == Err(TooManySuccesses) <==> n >= 0 && k >= 1 && c > n
    ensures PassAtK(n, c, k) == Err(KTooLarge) <==> 0 <= c <= n < k
  {
  }

  // ----- Choosing k runs -----

  /** The ways to choose k of these runs. */
  ghost function Choices(runs: set<nat>, k: nat): set<set<nat>> {
    set s | s <= runs && |s| == k
  }

  /** Binomial coefficients by Pascal's rule. */
  function Choose(n: nat, k: nat): nat {
    if k == 0 then 1
    else if n == 0 then 0
    else Choose(n - 1, k) + Choose(n - 1, k - 1)
  }

  /** The choices that contain x, by what they contain besides. */
  ghost function With(choices: set<set<nat>>, x: nat): set<set<nat>> {
    set s | s in choices :: s + {x}
  }

  lemma {:induction false} WithSize(choices: set<set<nat>>, x: nat)
    requires forall s :: s in choices ==> x !in s
    ensures |With(choices, x)| == |choices|
  {
    if choices != {} {
      var s :| s in choices;
      var rest := choices - {s};
      WithSize(rest, x);
      assert With(choices, x) == With(rest, x) + {s + {x}};
      forall t | t in rest ensures t + {x} != s + {x} {
        assert t + {x} - {x} == t && s + {x} - {x} == s;
      }
    }
  }

  lemma {:induction false} SubsetSize(s: set<nat>, t: set<nat>)
    requires s <= t
    ensures |s| <= |t|
    ensures |s| == |t| ==> s == t
  {
    if s != {} {
      var x :| x in s;
      SubsetSize(s - {x}, t - {x});
    } else if t != {} {
      var x :| x in t;
      assert |t| > 0;
    }
  }

  /** There are as many ways to choose k runs as the binomial coefficient says. */
  lemma {:induction false} ChoicesCount(runs: set<nat>, k: nat)
    ensures |Choices(runs, k)| == Choose(|runs|, k)
    decreases |runs|
  {
    if k == 0 || runs == {} {
      NoChoice(runs, k);
    } else {
      var x :| x in runs;
      ChoicesCount(runs - {x}, k);
      ChoicesCount(runs - {x}, k - 1);
      ChoicesStep(runs, x, k);
    }
  }

  lemma ChoicesStep(runs: set<nat>, x: nat, k: nat)
    requires x in runs && k > 0
    ensures |Choices(runs, k)| == |Choices(runs - {x}, k)| + |Choices(runs - {x}, k - 1)|
  {
    var (without, smaller) := (Choices(runs - {x}, k), Choices(runs - {x}, k - 1));
    assert forall s :: s in smaller ==> x !in s;
    WithSize(smaller, x);
    ChoicesSplit(runs, x, k);
    DisjointSize(without, With(smaller, x));
  }

  lemma NoChoice(runs: set<nat>, k: nat)
    requires k == 0 || runs == {}
    ensures Choices(runs, k) == if k == 0 then {{}} else {}
  {
  }

  lemma DisjointSize<T>(a: set<T>, b: set<T>)
    requires a !! b
    ensures |a + b| == |a| + |b|
  {
  }

  lemma ChoicesSplit(runs: set<nat>, x: nat, k: nat)
    requires x in runs && k > 0
    ensures Choices(runs, k) == Choices(runs - {x}, k) + With(Choices(runs - {x}, k - 1), x)
    ensures Choices(runs - {x}, k) !! With(Choices(runs - {x}, k - 1), x)
  {
    forall s | s in Choices(runs, k)
      ensures s in Choices(runs - {x}, k) || s in With(Choices(runs - {x}, k - 1), x)
    {
      if x in s {
        assert s - {x} in Choices(runs - {x}, k - 1) && s - {x} + {x} == s;
      }
    }
  }

  // ----- Factorials -----

  lemma {:induction false} ChooseSmall(n: nat, k: nat)
    ensures k > n ==> Choose(n, k) == 0
    ensures Choose(n, n) == 1
    ensures k <= n ==> Choose(n, k) > 0
    decreases n
  {
    if n > 0 {
      ChooseSmall(n - 1, k);
      ChooseSmall(n - 1, n);
      if k > 0 {
        ChooseSmall(n - 1, k - 1);
      }
    }
  }

  /** C(n,k) * k! * (n-k)! == n!. */
  lemma {:induction false} ChooseIsFactorials(n: nat, k: nat)
    requires k <= n
    ensures Choose(n, k) * (Factorial(k) * Factorial(n - k)) == Factorial(n)
    decreases n
  {
    if k == 0 {
    } else if k == n {
      ChooseSmall(n, n);
    } else {
      var (a, b) := (Choose(n - 1, k), Choose(n - 1, k - 1));
      var (f, g) := (Factorial(k - 1), Factorial(n - 1 - k));
      ChooseIsFactorials(n - 1, k);
      ChooseIsFactorials(n - 1, k - 1);
      assert Factorial(k) == k * f && Factorial(n - k) == (n - k) * g && n - 1 - (k - 1) == n - k;
      PascalStep(a, b, f, g, k, n - k, Factorial(n - 1));
      assert Factorial(n) == n * Factorial(n - 1);
    }
  }

  lemma PascalStep(a: nat, b: nat, f: nat, g: nat, k: nat, m: nat, h: nat)
    requires a * ((k * f) * g) == h && b * (f * (m * g)) == h
    ensures (a + b) * ((k * f) * (m * g)) == (k + m) * h
  {
    calc {
      (a + b) * ((k * f) * (m * g));
      a * ((k * f) * (m * g)) + b * ((k * f) * (m * g));
      { assert (k * f) * (m * g) == m * ((k * f) * g) == k * (f * (m * g)); }
      a * (m * ((k * f) * g)) + b * (k * (f * (m * g)));
      { Swap(a, m, (k * f) * g); Swap(b, k, f * (m * g)); }
      m * h + k * h;
      (k + m) * h;
    }
  }

  lemma Swap(a: nat, b: nat, c: nat)
    ensures a * (b * c) == b * (a * c)
  {
  }

  // ----- What the estimate is -----

  lemma Quotient(p: nat, q: nat, x: nat, y: nat)
    requires q > 0 && y > 0 && p * y == x * q
    ensures p as real / q as real == x as real / y as real
  {
    var (rp, rq, rx, ry) := (p as real, q as real, x as real, y as real);
    assert (p * y) as real == rp * ry && (x * q) as real == rx * rq;
    RealQuotient(rp, rq, rx, ry);
  }

  lemma RealQuotient(p: real, q: real, x: real, y: real)
    requires q > 0.0 && y > 0.0 && p * y == x * q
    ensures p / q == x / y
  {
    var r := x / y;
    assert x == r * y;
    assert p * y == r * y * q == (r * q) * y;
    Cancel(p, r * q, y);
    assert p / q == (r * q) / q == r;
  }

  lemma Cancel(a: real, b: real, y: real)
    requires y > 0.0 && a * y == b * y
    ensures a == b
  {
    assert (a - b) * y == 0.0;
  }

  /** (n-c)! (n-k)! / ((n-c-k)! n!) is C(n-c,k) / C(n,k). */
  lemma FactorialRatio(n: nat, c: nat, k: nat)
    requires c + k <= n
    ensures Choose(n, k) > 0
    ensures (Factorial(n - c) * Factorial(n - k)) as real / (Factorial(n - c - k) * Factorial(n)) as real ==
            Choose(n - c, k) as real / Choose(n, k) as real
  {
    ChooseSmall(n, k);
    ChooseIsFactorials(n, k);
    ChooseIsFactorials(n - c, k);
    var (x, y, f) := (Choose(n - c, k), Choose(n, k), Factorial(k));
    var (a, b, d) := (Factorial(n - c), Factorial(n - k), Factorial(n - c - k));
    CrossProducts(x, y, f, b, d);
    ProductPositive(d, Factorial(n));
    Quotient(a * b, d * Factorial(n), x, y);
  }

  lemma CrossProducts(x: nat, y: nat, f: nat, b: nat, d: nat)
    ensures (x * (f * d) * b) * y == x * (d * (y * (f * b)))
  {
    calc {
      (x * (f * d) * b) * y;
      x * ((f * d) * b * y);
      { assert (f * d) * b * y == d * (y * (f * b)); }
      x * (d * (y * (f * b)));
    }
  }

  function FailFraction(n: nat, c: nat, k: nat): real
    requires Valid(n, c, k) && Choose(n, k) > 0
  {
    Choose(n - c, k) as real / Choose(n, k) as real
  }

  /** The factorial ratio and both early returns are one fraction of binomial coefficients. */
  lemma AsFraction(n: nat, c: nat, k: nat)
    requires Valid(n, c, k)
    ensures Choose(n, k) > 0 && PassAtK(n, c, k) == Ok(1.0 - FailFraction(n, c, k))
  {
    ChooseSmall(n, k);
    if c == 0 {
      NoSuccess(n, k);
    } else if n - c < k {
      FewFailures(n, c, k);
    } else {
      FactorialRatio(n, c, k);
    }
  }

  lemma NoSuccess(n: nat, k: nat)
    requires Valid(n, 0, k) && Choose(n, k) > 0
    ensures FailFraction(n, 0, k) == 1.0
  {
    RealQuotient(Choose(n, k) as real, Choose(n, k) as real, 1.0, 1.0);
  }

  lemma FewFailures(n: nat, c: nat, k: nat)
    requires Valid(n, c, k) && Choose(n, k) > 0 && n - c < k
    ensures FailFraction(n, c, k) == 0.0
  {
    ChooseSmall(n - c, k);
  }

  /**
   The estimate is the chance that k of the runs, drawn at random, contain a success: whichever
   of the n runs succeeded, one minus the fraction of k-subsets without any of them.
   */
  lemma PassAtKIsAChance(runs: set<nat>, successes: set<nat>, k: nat)
    requires successes <= runs && Valid(|runs|, |successes|, k)
    ensures |Choices(runs, k)| > 0
    ensures PassAtK(|runs|, |successes|, k) ==
      Ok(1.0 - |Choices(runs - successes, k)| as real / |Choices(runs, k)| as real)
  {
    AsFraction(|runs|, |successes|, k);
    ChoicesCount(runs, k);
    ChoicesCount(runs - successes, k);
    DisjointSize(runs - successes, successes);
    assert runs - successes + successes == runs;
  }

  /** Drawings without a success are those that contain none of them. */
  lemma FailingDraws(runs: set<nat>, successes: set<nat>, k: nat)
    ensures Choices(runs - successes, k) == set s | s in Choices(runs, k) && s !! successes
  {
  }

  lemma FractionOrder(p: nat, q: nat, x: nat, y: nat)
    requires q > 0 && y > 0 && p * y <= x * q
    ensures p as real / q as real <= x as real / y as real
  {
    var (rp, rq, rx, ry) := (p as real, q as real, x as real, y as real);
    assert (p * y) as real == rp * ry && (x * q) as real == rx * rq;
    var (s, t) := (rp / rq, rx / ry);
    assert rp == s * rq && rx == t * ry;
    assert s * rq * ry <= t * ry * rq;
    if s > t {
      Larger(s, t, rq * ry);
    }
  }

  lemma Larger(s: real, t: real, y: real)
    requires s > t && y > 0.0
    ensures s * y > t * y
  {
  }

  lemma {:induction false} ChooseMonotone(n: nat, m: nat, k: nat)
    requires n <= m
    ensures Choose(n, k) <= Choose(m, k)
    decreases m
  {
    if n < m {
      ChooseMonotone(n, m - 1, k);
    }
  }

  /** Choosing one more: C(n,k+1) * (k+1) == C(n,k) * (n-k). */
  lemma {:induction false} ChooseNext(n: nat, k: nat)
    requires k <= n
    ensures Choose(n, k + 1) * (k + 1) == Choose(n, k) * (n - k)
    decreases n
  {
    if k == n {
      ChooseSmall(n, k + 1);
    } else if k == 0 {
      ChooseOne(n);
    } else {
      var (a, b, c) := (Choose(n - 1, k + 1), Choose(n - 1, k), Choose(n - 1, k - 1));
      ChooseNext(n - 1, k);
      ChooseNext(n - 1, k - 1);
      NextStep(a, b, c, n, k);
    }
  }

  lemma NextStep(a: nat, b: nat, c: nat, n: nat, k: nat)
    requires k < n && a * (k + 1) == b * (n - 1 - k) && b * k == c * (n - k)
    ensures (a + b) * (k + 1) == (b + c) * (n - k)
  {
    calc {
      (a + b) * (k + 1);
      a * (k + 1) + b * (k + 1);
      b * (n - 1 - k) + b * (k + 1);
      b * ((n - 1 - k) + (k + 1));
      b * n;
      b * (n - k) + b * k;
      (b + c) * (n - k);
    }
  }

  lemma {:induction false} ChooseOne(n: nat)
    ensures Choose(n, 1) == n
  {
    if n > 0 {
      ChooseOne(n - 1);
    }
  }

  /** For valid arguments the estimate lies in [0,1], and otherwise there is none. */
  lemma PassAtKBounds(n: int, c: int, k: int)
    ensures PassAtK(n, c, k).Ok? <==> Valid(n, c, k)
    ensures Valid(n, c, k) ==> 0.0 <= PassAtK(n, c, k).value <= 1.0
  {
    if Valid(n, c, k) {
      AsFraction(n, c, k);
      ChooseMonotone(n - c, n, k);
      FractionOrder(Choose(n - c, k), Choose(n, k), 1, 1);
      FractionOrder(0, 1, Choose(n - c, k), Choose(n, k));
    }
  }

  /** More successes never lower the estimate. */
  lemma MonotoneInSuccesses(n: nat, c: nat, k: nat)
    requires Valid(n, c, k) && c < n
    ensures PassAtK(n, c, k).Ok? && PassAtK(n, c + 1, k).Ok?
    ensures PassAtK(n, c, k).value <= PassAtK(n, c + 1, k).value
  {
    AsFraction(n, c, k);
    AsFraction(n, c + 1, k);
    ChooseMonotone(n - (c + 1), n - c, k);
    SameDenominator(Choose(n - (c + 1), k), Choose(n - c, k), Choose(n, k));
  }

  lemma SameDenominator(x: nat, y: nat, z: nat)
    requires x <= y && z > 0
    ensures x as real / z as real <= y as real / z as real
  {
    assert x * z <= y * z;
    FractionOrder(x, z, y, z);
  }

  /** Drawing more runs never lowers the estimate. */
  lemma MonotoneInK(n: nat, c: nat, k: nat)
    requires Valid(n, c, k) && k < n
    ensures PassAtK(n, c, k).Ok? && PassAtK(n, c, k + 1).Ok?
    ensures PassAtK(n, c, k).value <= PassAtK(n, c, k + 1).value
  {
    AsFraction(n, c, k);
    AsFraction(n, c, k + 1);
    ChooseSmall(n - c, k + 1);
    var (x, y, x', y') := (Choose(n - c, k), Choose(n, k), Choose(n - c, k + 1), Choose(n, k + 1));
    if k <= n - c {
      ChooseNext(n - c, k);
      ChooseNext(n, k);
      NextFraction(x, y, x', y', n - c - k, n - k, k + 1);
    }
    FractionOrder(x', y', x, y);
  }

  lemma NextFraction(x: nat, y: nat, x': nat, y': nat, a: nat, b: nat, k: nat)
    requires a <= b && b > 0 && k > 0 && x' * k == x * a && y' * k == y * b
    ensures x' * y <= x * y'
  {
    assert (x' * y) * k == (x * y) * a by {
      assert (x' * y) * k == (x' * k) * y;
    }
    assert (x * y') * k == (x * y) * b by {
      assert (x * y') * k == x * (y' * k);
    }
    assert (x * y) * a <= (x * y) * b;
  }
}
