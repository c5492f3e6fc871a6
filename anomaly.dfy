/** The anomaly rule: a purchase is flagged when its amount lies more than
    three standard deviations above the mean of its window. Statistics are
    over exact reals, and the square root is avoided by comparing squares. */
module Anomaly {
  import opened Basics
  import opened PurchaseLedger

  /** Which standard deviation is used: the population one (divide by n,
      `std(ddof=0)`) or the sample one (divide by n - 1, `std()`). */
  datatype Ddof = Population | Sample

  /** A flagged purchase with the mean and variance of its window; the
      reported standard deviation is the square root of `variance`. */
  datatype Flag = Flag(id: int, amount: real, mean: real, variance: real)

  function Sum(xs: seq<real>): real
  {
    if xs == [] then 0.0 else Sum(xs[..|xs| - 1]) + xs[|xs| - 1]
  }

  function Mean(xs: seq<real>): real
    requires |xs| > 0
  {
    Sum(xs) / |xs| as real
  }

  /** The sum of squared deviations of `xs` from `m`; never negative. */
  function SquaredDeviation(xs: seq<real>, m: real): (r: real)
    ensures r >= 0.0
  {
    if xs == [] then 0.0
    else
      var dev := xs[|xs| - 1] - m;
      SquaredDeviation(xs[..|xs| - 1], m) + dev * dev
  }

  function Divisor(n: nat, kind: Ddof): int
  {
    match kind
    case Population => n
    case Sample => n - 1
  }

  function Variance(xs: seq<real>, kind: Ddof): (r: real)
    requires |xs| >= 2
    ensures r >= 0.0
  {
    SquaredDeviation(xs, Mean(xs)) / Divisor(|xs|, kind) as real
  }

  /** `amount > mean + 3 * std`, stated without the square root. */
  predicate Exceeds(xs: seq<real>, amount: real, kind: Ddof)
    requires |xs| >= 2
  {
    var dev := amount - Mean(xs);
    dev > 0.0 && dev * dev > 9.0 * Variance(xs, kind)
  }

  /** `analyzePurchase`: a window of fewer than two amounts never flags;
      otherwise the purchase is flagged, with the window's statistics, iff
      it exceeds the threshold. */
  function Analyze(window: seq<real>, p: Purchase, kind: Ddof): (r: Option<Flag>)
    ensures |window| < 2 ==> r == None
    ensures r.Some? ==> r.value.id == p.id && r.value.amount == p.amount
    ensures r.Some? ==> r.value.amount > r.value.mean && r.value.variance >= 0.0
  {
    if |window| >= 2 && Exceeds(window, p.amount, kind)
    then Some(Flag(p.id, p.amount, Mean(window), Variance(window, kind)))
    else None
  }

  /** Kept apart so that the solver sees two opaque factors rather than the
      expanded polynomial in the window's mean. */
  lemma ProductPositive(x: real, y: real)
    requires x > 0.0 && y > 0.0
    ensures x * y > 0.0
  {
  }

  /** For the standard deviation `sd` of the window (the non-negative root of
      its variance), the squared comparison is exactly `amount > mean + 3 sd`. */
  lemma ExceedsIsThreeSigma(xs: seq<real>, amount: real, kind: Ddof, sd: real)
    requires |xs| >= 2 && sd >= 0.0 && sd * sd == Variance(xs, kind)
    ensures Exceeds(xs, amount, kind) <==> amount > Mean(xs) + 3.0 * sd
  {
    var dev := amount - Mean(xs);
    var lim := 3.0 * sd;
    assert dev * dev - 9.0 * (sd * sd) == (dev - lim) * (dev + lim);
    if dev > lim {
      ProductPositive(dev - lim, dev + lim);
    } else if dev > 0.0 {
      assert dev * dev <= lim * lim by {
        assert dev * dev <= dev * lim;
        assert dev * lim <= lim * lim;
      }
    }
  }

  /** The flag rule about `analyzePurchase` itself: for the standard
      deviation `sd` of the window, the purchase is flagged iff the window
      holds at least two amounts and `amount > mean + 3 sd`, and a flag
      reports the window's own mean and variance. */
  lemma AnalyzeIsThreeSigma(window: seq<real>, p: Purchase, kind: Ddof, sd: real)
    requires sd >= 0.0 && (|window| >= 2 ==> sd * sd == Variance(window, kind))
    ensures Analyze(window, p, kind).Some? <==> |window| >= 2 && p.amount > Mean(window) + 3.0 * sd
    ensures Analyze(window, p, kind).Some? ==>
      Analyze(window, p, kind).value.mean == Mean(window) && Analyze(window, p, kind).value.variance == Variance(window, kind)
  {
    if |window| >= 2 {
      ExceedsIsThreeSigma(window, p.amount, kind, sd);
    }
  }

  /** For a fixed window, a flagged amount stays flagged when it grows. */
  lemma FlagMonotone(window: seq<real>, p: Purchase, q: Purchase, kind: Ddof)
    requires p.amount <= q.amount
    requires Analyze(window, p, kind).Some?
    ensures Analyze(window, q, kind).Some?
  {
  }

  /** The sample variance is at least the population variance. */
  lemma SampleVarianceLarger(xs: seq<real>)
    requires |xs| >= 2
    ensures Variance(xs, Sample) >= Variance(xs, Population)
  {
    var s := SquaredDeviation(xs, Mean(xs));
    var n := |xs| as real;
    var a := s / (n - 1.0);
    var b := s / n;
    assert a * (n - 1.0) == s && b * n == s;
    assert (a - b) * n == a;
  }

  /** A purchase flagged with the sample deviation is flagged with the
      population deviation as well. */
  lemma SampleFlagImpliesPopulationFlag(window: seq<real>, p: Purchase)
    requires Analyze(window, p, Sample).Some?
    ensures Analyze(window, p, Population).Some?
  {
    SampleVarianceLarger(window);
  }

  /** Window [10, 10, 10] and amount 50: mean 10, deviation 0, flagged. */
  lemma FlatWindowFlags()
    ensures Analyze([10.0, 10.0, 10.0], Purchase(1, 50.0), Population) == Some(Flag(1, 50.0, 10.0, 0.0))
  {
    var w := [10.0, 10.0, 10.0];
    var w1, w2 := [10.0], [10.0, 10.0];
    assert w[..2] == w2 && w2[..1] == w1 && w1[..0] == [];
    assert Sum(w1) == 10.0 && Sum(w2) == 20.0 && Sum(w) == 30.0;
    assert Mean(w) == 10.0;
    assert SquaredDeviation(w1, 10.0) == 0.0;
    assert SquaredDeviation(w2, 10.0) == 0.0;
    assert SquaredDeviation(w, 10.0) == 0.0;
  }
}
