/** Portfolio fit over exact reals: correlation bounds, probe funding, conservation of weight and projected variance. */
module PortfolioFit {
  import opened Workflow
  import opened Factors

  const CORRELATION_LOOKBACK_DAYS := 60
  const CORRELATION_MIN_SAMPLES := 40

  /** The square root, left abstract. */
  type Root = real -> real

  ghost predicate IsRoot(root: Root) {
    forall x: real :: x >= 0.0 ==> root(x) >= 0.0 && root(x) * root(x) == x
  }

  // ----- Cauchy-Schwarz -----

  function Dot(a: seq<real>, b: seq<real>): real
    requires |a| == |b|
  {
    if a == [] then 0.0 else a[0] * b[0] + Dot(a[1..], b[1..])
  }

  /** t * a + b, term by term */
  function Blend(t: real, a: seq<real>, b: seq<real>): seq<real>
    requires |a| == |b|
  {
    if a == [] then [] else [t * a[0] + b[0]] + Blend(t, a[1..], b[1..])
  }

  lemma {:induction false} SquareIsNotNegative(x: real)
    ensures x * x >= 0.0
  {
  }

  lemma {:induction false} SelfDotIsNotNegative(a: seq<real>)
    ensures Dot(a, a) >= 0.0
  {
    if a != [] {
      SquareIsNotNegative(a[0]);
      SelfDotIsNotNegative(a[1..]);
    }
  }

  function Quadratic(t: real, aa: real, ab: real, bb: real): real {
    t * t * aa + 2.0 * t * ab + bb
  }

  lemma {:induction false} BlendSquare(t: real, x: real, y: real)
    ensures (t * x + y) * (t * x + y) == Quadratic(t, x * x, x * y, y * y)
  {
    var p := t * x;
    assert (p + y) * (p + y) == p * p + 2.0 * (p * y) + y * y;
    assert p * p == t * t * (x * x);
    assert p * y == t * (x * y);
  }

  lemma {:induction false} QuadraticsAdd(
      t: real, aa: real, ab: real, bb: real, restAA: real, restAB: real, restBB: real)
    ensures Quadratic(t, aa, ab, bb) + Quadratic(t, restAA, restAB, restBB) == Quadratic(t, aa + restAA, ab + restAB, bb + restBB)
    ensures Quadratic(t, 0.0, 0.0, 0.0) == 0.0
  {
  }

  lemma {:induction false} BlendDot(t: real, a: seq<real>, b: seq<real>)
    requires |a| == |b|
    ensures |Blend(t, a, b)| == |a|
    ensures Dot(Blend(t, a, b), Blend(t, a, b)) == Quadratic(t, Dot(a, a), Dot(a, b), Dot(b, b))
  {
    hide Quadratic;
    if a == [] {
      QuadraticsAdd(t, 0.0, 0.0, 0.0, 0.0, 0.0, 0.0);
    } else {
      var c, x, y := Blend(t, a, b), a[0], b[0];
      BlendDot(t, a[1..], b[1..]);
      BlendSquare(t, x, y);
      assert c[1..] == Blend(t, a[1..], b[1..]);
      assert Dot(c, c) == (t * x + y) * (t * x + y) + Dot(c[1..], c[1..]);
      assert Dot(a, a) == x * x + Dot(a[1..], a[1..]);
      assert Dot(a, b) == x * y + Dot(a[1..], b[1..]);
      assert Dot(b, b) == y * y + Dot(b[1..], b[1..]);
      QuadraticsAdd(t, x * x, x * y, y * y, Dot(a[1..], a[1..]), Dot(a[1..], b[1..]), Dot(b[1..], b[1..]));
    }
  }

  /** A quadratic that is nowhere negative has no positive discriminant. */
  lemma {:induction false} Discriminant(aa: real, ab: real, bb: real)
    requires aa >= 0.0 && bb >= 0.0
    requires forall t: real :: Quadratic(t, aa, ab, bb) >= 0.0
    ensures ab * ab <= aa * bb
  {
    if aa > 0.0 {
      var t := -ab / aa;
      assert Quadratic(t, aa, ab, bb) >= 0.0;
      assert t * aa == -ab;
      assert t * t * aa == -(t * ab);
      assert bb + t * ab >= 0.0;
      assert (bb + t * ab) * aa == aa * bb - ab * ab;
      TimesNotNegative(bb + t * ab, aa);
    } else {
      if ab != 0.0 {
        var t := -(bb + 1.0) / ab;
        FlatQuadratic(t, ab, bb);
      }
    }
  }

  lemma {:induction false} TimesNotNegative(x: real, y: real)
    requires x >= 0.0 && y >= 0.0
    ensures x * y >= 0.0
  {
  }

  /** Without a square term, a quadratic that rises or falls is negative somewhere. */
  lemma {:induction false} FlatQuadratic(t: real, ab: real, bb: real)
    requires bb >= 0.0 && ab != 0.0 && t == -(bb + 1.0) / ab
    ensures Quadratic(t, 0.0, ab, bb) < 0.0
  {
    assert t * ab == -(bb + 1.0);
  }

  /** Covariance squared never exceeds the product of the variances. */
  lemma {:induction false} CauchySchwarz(a: seq<real>, b: seq<real>)
    requires |a| == |b|
    ensures Dot(a, b) * Dot(a, b) <= Dot(a, a) * Dot(b, b)
  {
    hide Dot, Blend;
    SelfDotIsNotNegative(a);
    SelfDotIsNotNegative(b);
    forall t: real
      ensures Quadratic(t, Dot(a, a), Dot(a, b), Dot(b, b)) >= 0.0
    {
      BlendDot(t, a, b);
      SelfDotIsNotNegative(Blend(t, a, b));
    }
    Discriminant(Dot(a, a), Dot(a, b), Dot(b, b));
  }

  // ----- correlation -----

  predicate IsLeast(day: nat, days: set<nat>) {
    day in days && forall d :: d in days ==> day <= d
  }

  lemma {:induction false} LeastExists(days: set<nat>)
    requires days != {}
    ensures exists day :: IsLeast(day, days)
    decreases |days|
  {
    var d :| d in days;
    var rest := days - {d};
    if rest == {} {
      assert days == {d};
      assert IsLeast(d, days);
    } else {
      LeastExists(rest);
      var least :| IsLeast(least, rest);
      var smaller := if d < least then d else least;
      forall e | e in days
        ensures smaller <= e
      {
        assert e == d || e in rest;
      }
      assert IsLeast(smaller, days);
    }
  }

  /** `sorted(days)` */
  function SortedDays(days: set<nat>): (sorted: seq<nat>)
    ensures |sorted| == |days| && forall i :: 0 <= i < |sorted| ==> sorted[i] in days
    decreases |days|
  {
    if days == {} then []
    else
      LeastExists(days);
      var day :| IsLeast(day, days);
      [day] + SortedDays(days - {day})
  }

  lemma {:induction false} SortedDaysSorts(days: set<nat>)
    ensures forall i, j :: 0 <= i < j < |SortedDays(days)| ==> SortedDays(days)[i] < SortedDays(days)[j]
    ensures forall d :: d in days ==> d in SortedDays(days)
    decreases |days|
  {
    if days != {} {
      LeastExists(days);
      var day :| IsLeast(day, days);
      var rest := SortedDays(days - {day});
      SortedDaysSorts(days - {day});
      assert SortedDays(days) == [day] + rest;
      assert forall d :: d in days ==> d == day || d in days - {day};
    }
  }

  function Select(series: map<nat, real>, days: seq<nat>): seq<real>
    requires forall i :: 0 <= i < |days| ==> days[i] in series
  {
    seq(|days|, i requires 0 <= i < |days| => series[days[i]])
  }

  function Sum(values: seq<real>): real {
    if values == [] then 0.0 else values[0] + Sum(values[1..])
  }

  function Centred(values: seq<real>): seq<real>
    requires values != []
  {
    var mean := Sum(values) / |values| as real;
    seq(|values|, i requires 0 <= i < |values| => values[i] - mean)
  }

  function Common(first: map<nat, real>, second: map<nat, real>): set<nat> {
    first.Keys * second.Keys
  }

  lemma {:induction false} CommonIsSymmetric(first: map<nat, real>, second: map<nat, real>)
    ensures Common(first, second) == Common(second, first)
  {
  }

  /** The deviations of the first series from its mean over the days it shares with the second. */
  function Deviations(first: map<nat, real>, second: map<nat, real>): (deviations: seq<real>)
    requires Common(first, second) != {}
    ensures |deviations| == |Common(first, second)|
  {
    Centred(Select(first, SortedDays(Common(first, second))))
  }

  /** `_correlation`: the correlation over the common days, and how many there are. */
  function Correlation(root: Root, first: map<nat, real>, second: map<nat, real>, minSamples: nat): (Option<real>, nat)
    requires minSamples > 0 && IsRoot(root)
  {
    var common := Common(first, second);
    CommonIsSymmetric(first, second);
    if |common| < minSamples then (None, |common|)
    else
      var left, right := Deviations(first, second), Deviations(second, first);
      (Quotient(root, Dot(left, left), Dot(left, right), Dot(right, right)), |common|)
  }

  /** The two series are paired day by day, over each common day once and in order: an earlier place is an earlier day, and the
      entries of both series at two places differ as they do on those days. */
  lemma {:induction false} SeriesArePaired(first: map<nat, real>, second: map<nat, real>, i: nat, j: nat)
    requires i < j < |Common(first, second)|
    ensures var days := SortedDays(Common(first, second));
            days[i] < days[j] && days[i] in Common(first, second) && days[j] in Common(first, second)
            && Differ(Deviations(first, second), i, j, first, days[i], days[j])
            && Differ(Deviations(second, first), i, j, second, days[i], days[j])
    ensures forall d :: d in Common(first, second) ==> d in SortedDays(Common(first, second))
  {
    hide Sum, SortedDays;
    SortedDaysSorts(Common(first, second));
    CommonIsSymmetric(first, second);
  }

  predicate Differ(deviations: seq<real>, i: nat, j: nat, series: map<nat, real>, d: nat, e: nat) {
    i < |deviations| && j < |deviations| && d in series && e in series && deviations[i] - deviations[j] == series[d] - series[e]
  }

  /** The covariance over the root of the variances' product; none when a series does not vary. */
  function Quotient(root: Root, leftVar: real, covariance: real, rightVar: real): Option<real>
    requires IsRoot(root)
  {
    if leftVar <= 0.0 || rightVar <= 0.0 then None
    else
      RootIsPositive(root, leftVar, rightVar);
      Some(covariance / root(leftVar * rightVar))
  }

  lemma {:induction false} RootIsPositive(root: Root, x: real, y: real)
    requires IsRoot(root) && x > 0.0 && y > 0.0
    ensures x * y > 0.0 && root(x * y) > 0.0 && root(x * y) * root(x * y) == x * y
  {
    TimesKeepsOrder(0.0, x, y);
    assert root(x * y) * root(x * y) == x * y;
  }

  /** The first series varies over the days it shares with the second. */
  predicate Varies(first: map<nat, real>, second: map<nat, real>) {
    Common(first, second) != {}
    && Dot(Deviations(first, second), Deviations(first, second)) > 0.0
  }

  lemma {:induction false} LargerSquare(x: real, r: real)
    requires 0.0 < r < x
    ensures r * r < x * x
  {
    TimesKeepsOrder(r, x, r);
    TimesKeepsOrder(r, x, x);
  }

  lemma {:induction false} RatioAtMostOne(covariance: real, r: real)
    requires r > 0.0 && covariance * covariance <= r * r
    ensures -1.0 <= covariance / r <= 1.0
  {
    if covariance > r {
      LargerSquare(covariance, r);
    } else if -covariance > r {
      LargerSquare(-covariance, r);
    }
    BetweenMultiples(covariance, r, -1.0, 1.0);
  }

  lemma {:induction false} QuotientBounds(root: Root, leftVar: real, covariance: real, rightVar: real)
    requires IsRoot(root) && covariance * covariance <= leftVar * rightVar
    ensures Quotient(root, leftVar, covariance, rightVar).Some? <==> leftVar > 0.0 && rightVar > 0.0
    ensures Quotient(root, leftVar, covariance, rightVar).Some? ==>
              -1.0 <= Quotient(root, leftVar, covariance, rightVar).value <= 1.0
  {
    if leftVar > 0.0 && rightVar > 0.0 {
      RootIsPositive(root, leftVar, rightVar);
      RatioAtMostOne(covariance, root(leftVar * rightVar));
    }
  }

  /** Every correlation lies in [-1, 1]; and it exists exactly when there are enough common days and both series vary. */
  lemma {:induction false} CorrelationBounds(root: Root, first: map<nat, real>, second: map<nat, real>, minSamples: nat)
    requires IsRoot(root) && minSamples > 0
    ensures var (corr, samples) := Correlation(root, first, second, minSamples);
            && samples == |Common(first, second)|
            && (corr.Some? ==> -1.0 <= corr.value <= 1.0)
            && (corr.Some? <==> samples >= minSamples && Varies(first, second) && Varies(second, first))
  {
    hide Dot, Deviations, Quotient, IsRoot, Common;
    var common := Common(first, second);
    CommonIsSymmetric(first, second);
    if |common| >= minSamples {
      var left, right := Deviations(first, second), Deviations(second, first);
      CauchySchwarz(left, right);
      QuotientBounds(root, Dot(left, left), Dot(left, right), Dot(right, right));
    }
  }

  // ----- what the correlation is -----

  /** The sum of a series over some of its days. */
  function DaySum(series: map<nat, real>, days: seq<nat>): real
    requires forall i :: 0 <= i < |days| ==> days[i] in series
  {
    if days == [] then 0.0 else series[days[0]] + DaySum(series, days[1..])
  }

  /** The sum over the days of (a[day] - p) * (b[day] - q). */
  function Codeviation(a: map<nat, real>, p: real, b: map<nat, real>, q: real, days: seq<nat>): real
    requires forall i :: 0 <= i < |days| ==> days[i] in a && days[i] in b
  {
    if days == [] then 0.0 else (a[days[0]] - p) * (b[days[0]] - q) + Codeviation(a, p, b, q, days[1..])
  }

  function Shifted(series: map<nat, real>, p: real, days: seq<nat>): seq<real>
    requires forall i :: 0 <= i < |days| ==> days[i] in series
  {
    seq(|days|, i requires 0 <= i < |days| => series[days[i]] - p)
  }

  lemma {:induction false} SelectSums(series: map<nat, real>, days: seq<nat>)
    requires forall i :: 0 <= i < |days| ==> days[i] in series
    ensures Sum(Select(series, days)) == DaySum(series, days)
  {
    if days != [] {
      SelectSums(series, days[1..]);
      assert Select(series, days)[1..] == Select(series, days[1..]);
    }
  }

  lemma {:induction false} ShiftedDot(a: map<nat, real>, p: real, b: map<nat, real>, q: real, days: seq<nat>)
    requires forall i :: 0 <= i < |days| ==> days[i] in a && days[i] in b
    ensures Dot(Shifted(a, p, days), Shifted(b, q, days)) == Codeviation(a, p, b, q, days)
  {
    if days != [] {
      ShiftedDot(a, p, b, q, days[1..]);
      assert Shifted(a, p, days)[1..] == Shifted(a, p, days[1..]);
      assert Shifted(b, q, days)[1..] == Shifted(b, q, days[1..]);
    }
  }

  function SharedDays(first: map<nat, real>, second: map<nat, real>): (days: seq<nat>)
    ensures |days| == |first.Keys * second.Keys|
    ensures forall i :: 0 <= i < |days| ==> days[i] in first && days[i] in second
  {
    SortedDays(first.Keys * second.Keys)
  }

  function Mean(series: map<nat, real>, days: seq<nat>): real
    requires days != [] && forall i :: 0 <= i < |days| ==> days[i] in series
  {
    DaySum(series, days) / |days| as real
  }

  lemma {:induction false} DeviationsAreShifted(first: map<nat, real>, second: map<nat, real>)
    requires Common(first, second) != {}
    ensures SharedDays(first, second) != []
    ensures Deviations(first, second) == Shifted(first, Mean(first, SharedDays(first, second)), SharedDays(first, second))
  {
    var days := SharedDays(first, second);
    SelectSums(first, days);
  }

  lemma {:induction false} DotIsCodeviation(first: map<nat, real>, second: map<nat, real>)
    requires Common(first, second) != {}
    ensures var days := SharedDays(first, second);
            && days != [] && days == SharedDays(second, first)
            && Common(second, first) != {} && |Deviations(first, second)| == |Deviations(second, first)|
            && Dot(Deviations(first, second), Deviations(second, first))
               == Codeviation(first, Mean(first, days), second, Mean(second, days), days)
            && Dot(Deviations(first, second), Deviations(first, second))
               == Codeviation(first, Mean(first, days), first, Mean(first, days), days)
  {
    hide Dot, Deviations, Codeviation, SortedDays, Mean, Shifted;
    CommonIsSymmetric(first, second);
    DeviationsAreShifted(first, second);
    DeviationsAreShifted(second, first);
    var days := SharedDays(first, second);
    ShiftedDot(first, Mean(first, days), second, Mean(second, days), days);
    ShiftedDot(first, Mean(first, days), first, Mean(first, days), days);
  }

  /** Some value differs between two of the days. */
  predicate Changes(series: map<nat, real>, days: set<nat>) {
    exists d, e :: d in days && e in days && d in series && e in series && series[d] != series[e]
  }

  lemma {:induction false} SquaresAddUp(series: map<nat, real>, p: real, days: seq<nat>)
    requires forall i :: 0 <= i < |days| ==> days[i] in series
    ensures Codeviation(series, p, series, p, days) >= 0.0
    ensures Codeviation(series, p, series, p, days) == 0.0 <==> forall i :: 0 <= i < |days| ==> series[days[i]] == p
  {
    if days != [] {
      SquaresAddUp(series, p, days[1..]);
      SquareIsNotNegative(series[days[0]] - p);
      NoSquareNoRoot(series[days[0]] - p);
      assert forall i :: 0 <= i < |days| - 1 ==> days[1..][i] == days[i + 1];
      if forall i :: 0 <= i < |days| - 1 ==> series[days[1..][i]] == p {
        assert forall i :: 0 < i < |days| ==> days[i] == days[1..][i - 1];
      }
    }
  }

  lemma {:induction false} NoSquareNoRoot(x: real)
    ensures x * x == 0.0 <==> x == 0.0
  {
    if x != 0.0 {
      assert x * x / x == x;
    }
  }

  lemma {:induction false} ConstantSum(series: map<nat, real>, days: seq<nat>, c: real)
    requires forall i :: 0 <= i < |days| ==> days[i] in series && series[days[i]] == c
    ensures DaySum(series, days) == |days| as real * c
  {
    if days != [] {
      ConstantSum(series, days[1..], c);
    }
  }

  lemma {:induction false} ConstantMean(series: map<nat, real>, days: seq<nat>, c: real)
    requires days != [] && forall i :: 0 <= i < |days| ==> days[i] in series && series[days[i]] == c
    ensures Mean(series, days) == c
  {
    hide DaySum;
    ConstantSum(series, days, c);
    MeanOfSame(|days| as real, c);
  }

  lemma {:induction false} VariesIffChanges(first: map<nat, real>, second: map<nat, real>)
    ensures Varies(first, second) <==> Changes(first, first.Keys * second.Keys)
  {
    hide Dot, Deviations, Codeviation, SortedDays, Mean;
    if Common(first, second) != {} {
      var days := SharedDays(first, second);
      var mean := Mean(first, days);
      DotIsCodeviation(first, second);
      SortedDaysSorts(Common(first, second));
      SquaresAddUp(first, mean, days);
      if !Changes(first, first.Keys * second.Keys) {
        ConstantMean(first, days, first[days[0]]);
      } else {
        var d, e :| d in first.Keys * second.Keys && e in first.Keys * second.Keys && first[d] != first[e];
        NotConstant(first, second, mean, d, e);
      }
    }
  }

  lemma {:induction false} MeanOfSame(n: real, c: real)
    requires n > 0.0
    ensures n * c / n == c
  {
  }

  /** c is the summed products of the deviations from p and q, over the root of the product of their summed squares. */
  predicate IsRatio(root: Root, first: map<nat, real>, p: real, second: map<nat, real>, q: real, days: seq<nat>, c: real)
    requires forall i :: 0 <= i < |days| ==> days[i] in first && days[i] in second
  {
    RatioOf(root, Codeviation(first, p, first, p, days), Codeviation(first, p, second, q, days),
            Codeviation(second, q, second, q, days), c)
  }

  predicate RatioOf(root: Root, x: real, mixed: real, y: real, c: real) {
    root(x * y) > 0.0 && c * root(x * y) == mixed
  }

  /** A correlation exists exactly when there are enough shared days and each series changes over them; times the root of the
      product of the summed squares it is the summed products of both deviations from the means over the shared days. */
  lemma {:induction false} CorrelationIsExact(root: Root, first: map<nat, real>, second: map<nat, real>, minSamples: nat)
    requires IsRoot(root) && minSamples > 0
    ensures var corr, days := Correlation(root, first, second, minSamples).0, SharedDays(first, second);
            (corr.Some? <==>
               |days| >= minSamples && Changes(first, first.Keys * second.Keys) && Changes(second, first.Keys * second.Keys))
            && (corr.Some? ==>
                  days != [] && IsRatio(root, first, Mean(first, days), second, Mean(second, days), days, corr.value))
  {
    hide Dot, Deviations, Codeviation, SortedDays, DaySum, IsRoot, Changes, Quotient, RatioOf;
    CorrelationBounds(root, first, second, minSamples);
    VariesIffChanges(first, second);
    VariesIffChanges(second, first);
    CommonIsSymmetric(first, second);
    assert first.Keys * second.Keys == second.Keys * first.Keys;
    if Common(first, second) != {} {
      DotIsCodeviation(first, second);
      DotIsCodeviation(second, first);
      var days := SharedDays(first, second);
      var p, q := Mean(first, days), Mean(second, days);
      QuotientIsExact(root, Codeviation(first, p, first, p, days), Codeviation(first, p, second, q, days),
                      Codeviation(second, q, second, q, days));
    }
  }

  lemma {:induction false} QuotientIsExact(root: Root, x: real, c: real, y: real)
    requires IsRoot(root)
    ensures Quotient(root, x, c, y).Some? <==> x > 0.0 && y > 0.0
    ensures Quotient(root, x, c, y).Some? ==> RatioOf(root, x, c, y, Quotient(root, x, c, y).value)
  {
    if x > 0.0 && y > 0.0 {
      RootIsPositive(root, x, y);
      assert c / root(x * y) * root(x * y) == c;
    }
  }

  lemma {:induction false} DotIsSymmetric(a: seq<real>, b: seq<real>)
    requires |a| == |b|
    ensures Dot(a, b) == Dot(b, a)
  {
    if a != [] {
      DotIsSymmetric(a[1..], b[1..]);
    }
  }

  lemma {:induction false} ProductIsSymmetric(x: real, y: real)
    ensures x * y == y * x
  {
  }

  /** The correlation does not depend on which series comes first. */
  lemma {:induction false} CorrelationIsSymmetric(root: Root, first: map<nat, real>, second: map<nat, real>, minSamples: nat)
    requires IsRoot(root) && minSamples > 0
    ensures Correlation(root, first, second, minSamples) == Correlation(root, second, first, minSamples)
  {
    hide Dot, Deviations, IsRoot;
    CommonIsSymmetric(first, second);
    if |Common(first, second)| >= minSamples {
      var left, right := Deviations(first, second), Deviations(second, first);
      DotIsSymmetric(left, right);
      ProductIsSymmetric(Dot(left, left), Dot(right, right));
    }
  }

  /** One series is a line over the other on the days they share. */
  predicate Lies(first: map<nat, real>, second: map<nat, real>, k: real, m: real) {
    forall d :: d in first && d in second ==> second[d] == k * first[d] + m
  }

  lemma {:induction false} LineSums(first: map<nat, real>, second: map<nat, real>, k: real, m: real, days: seq<nat>)
    requires forall i :: 0 <= i < |days| ==> days[i] in first && days[i] in second
    requires Lies(first, second, k, m)
    ensures DaySum(second, days) == k * DaySum(first, days) + |days| as real * m
  {
    if days != [] {
      LineSums(first, second, k, m, days[1..]);
      var x, rest := first[days[0]], DaySum(first, days[1..]);
      assert k * (x + rest) == k * x + k * rest;
    }
  }

  function Times(x: real, y: real): real {
    x * y
  }

  lemma {:induction false} CodeviationStep(a: map<nat, real>, p: real, b: map<nat, real>, q: real, days: seq<nat>)
    requires days != [] && forall i :: 0 <= i < |days| ==> days[i] in a && days[i] in b
    ensures Codeviation(a, p, b, q, days) == Times(a[days[0]] - p, b[days[0]] - q) + Codeviation(a, p, b, q, days[1..])
  {
  }

  /** On a line, one more day keeps the mixed sum and the second series' sum at their multiples of the first's. */
  lemma {:induction false} LineStep(k: real, x: real, y: real, rest: real, restMixed: real, restOther: real, sum: real)
    requires y == k * x && restMixed == k * rest && restOther == k * k * rest && sum == Times(x, x) + rest
    ensures Times(x, y) + restMixed == k * sum && Times(y, y) + restOther == k * k * sum
  {
    assert k * sum == k * (x * x) + k * rest;
    assert k * k * sum == k * k * (x * x) + k * k * rest;
    assert x * y == k * (x * x) && y * y == k * k * (x * x);
  }

  lemma {:induction false} LineDifference(k: real, m: real, x: real, p: real)
    ensures k * x + m - (k * p + m) == k * (x - p)
  {
  }

  lemma {:induction false} LineDeviations(
      first: map<nat, real>, p: real, second: map<nat, real>, q: real, k: real, m: real, days: seq<nat>)
    requires q == k * p + m && forall i :: 0 <= i < |days| ==> days[i] in first && days[i] in second
    requires Lies(first, second, k, m)
    ensures Codeviation(first, p, second, q, days) == k * Codeviation(first, p, first, p, days)
            && Codeviation(second, q, second, q, days) == k * k * Codeviation(first, p, first, p, days)
  {
    hide Times, Codeviation;
    if days == [] {
      NoCodeviation(first, p, second, q);
    } else {
      var rest := days[1..];
      LineDeviations(first, p, second, q, k, m, rest);
      CodeviationStep(first, p, first, p, days);
      CodeviationStep(first, p, second, q, days);
      CodeviationStep(second, q, second, q, days);
      LineDifference(k, m, first[days[0]], p);
      LineStep(k, first[days[0]] - p, second[days[0]] - q, Codeviation(first, p, first, p, rest),
               Codeviation(first, p, second, q, rest), Codeviation(second, q, second, q, rest),
               Codeviation(first, p, first, p, days));
    }
  }

  lemma {:induction false} NoCodeviation(first: map<nat, real>, p: real, second: map<nat, real>, q: real)
    ensures Codeviation(first, p, first, p, []) == Codeviation(first, p, second, q, []) == Codeviation(second, q, second, q, []) == 0.0
  {
  }

  lemma {:induction false} MeanOfLine(k: real, m: real, sum: real, n: real)
    requires n > 0.0
    ensures (k * sum + n * m) / n == k * (sum / n) + m
  {
    var mean := sum / n;
    assert mean * n == sum;
    assert k * sum + n * m == (k * mean + m) * n;
  }

  lemma {:induction false} RootOfLine(v: real, k: real, r: real, c: real)
    requires v > 0.0 && r > 0.0 && r * r == v * (k * k * v) && c * r == k * v
    ensures k > 0.0 ==> c == 1.0
    ensures k < 0.0 ==> c == -1.0
  {
    var x := k * v;
    assert x * x == v * (k * k * v);
    if k > 0.0 {
      TimesKeepsOrder(0.0, k, v);
      SameSquare(x, r);
      SameFactor(c, 1.0, r);
    } else if k < 0.0 {
      TimesKeepsOrder(k, 0.0, v);
      assert (-x) * (-x) == x * x;
      SameSquare(-x, r);
      SameFactor(c, -1.0, r);
    }
  }

  lemma {:induction false} SameSquare(x: real, r: real)
    requires x > 0.0 && r > 0.0 && x * x == r * r
    ensures x == r
  {
    if x > r {
      LargerSquare(x, r);
    } else if r > x {
      LargerSquare(r, x);
    }
  }

  lemma {:induction false} SameFactor(x: real, y: real, r: real)
    requires r > 0.0 && x * r == y * r
    ensures x == y
  {
  }

  /** Two series on a common rising line correlate with 1, on a falling line with -1, and on a flat line not at all. */
  lemma {:induction false} LinesCorrelateFully(
      root: Root, first: map<nat, real>, second: map<nat, real>, minSamples: nat, k: real, m: real, d: nat, e: nat)
    requires IsRoot(root) && minSamples > 0 && |first.Keys * second.Keys| >= minSamples
    requires Lies(first, second, k, m)
    requires d in first && d in second && e in first && e in second && first[d] != first[e]
    ensures Correlation(root, first, second, minSamples).0
            == if k > 0.0 then Some(1.0) else if k < 0.0 then Some(-1.0) else None
  {
    hide Codeviation, SharedDays, DaySum, IsRoot, Correlation, IsRatio, Lies, Changes, Mean;
    var days := SharedDays(first, second);
    CorrelationIsExact(root, first, second, minSamples);
    LineChanges(first, second, k, m, d, e);
    if k != 0.0 {
      LineRatio(root, first, second, k, m, days, Correlation(root, first, second, minSamples).0.value) by {
        NotConstant(first, second, Mean(first, days), d, e);
      }
    }
  }

  lemma {:induction false} LineChanges(first: map<nat, real>, second: map<nat, real>, k: real, m: real, d: nat, e: nat)
    requires Lies(first, second, k, m)
    requires d in first && d in second && e in first && e in second && first[d] != first[e]
    ensures Changes(first, first.Keys * second.Keys)
    ensures Changes(second, first.Keys * second.Keys) <==> k != 0.0
  {
    if k != 0.0 {
      Slope(k, m, first[d], first[e]);
      assert second[d] != second[e];
    } else {
      assert forall x :: x in first && x in second ==> second[x] == m;
    }
  }

  lemma {:induction false} LineMean(first: map<nat, real>, second: map<nat, real>, k: real, m: real, days: seq<nat>)
    requires Lies(first, second, k, m)
    requires days != [] && forall i :: 0 <= i < |days| ==> days[i] in first && days[i] in second
    ensures Mean(second, days) == k * Mean(first, days) + m
  {
    hide DaySum, Lies;
    LineSums(first, second, k, m, days);
    MeanOfLine(k, m, DaySum(first, days), |days| as real);
  }

  lemma {:induction false} LineRatio(
      root: Root, first: map<nat, real>, second: map<nat, real>, k: real, m: real, days: seq<nat>, c: real)
    requires IsRoot(root) && Lies(first, second, k, m)
    requires days != [] && forall i :: 0 <= i < |days| ==> days[i] in first && days[i] in second
    requires !(forall i :: 0 <= i < |days| ==> first[days[i]] == Mean(first, days))
    requires IsRatio(root, first, Mean(first, days), second, Mean(second, days), days, c)
    ensures k > 0.0 ==> c == 1.0
    ensures k < 0.0 ==> c == -1.0
  {
    hide Codeviation, Mean, IsRoot, Lies, RatioOf;
    var p := Mean(first, days);
    LineMean(first, second, k, m, days);
    LineDeviations(first, p, second, Mean(second, days), k, m, days);
    SquaresAddUp(first, p, days);
    var q := Mean(second, days);
    RatioOnLine(root, Codeviation(first, p, first, p, days), Codeviation(first, p, second, q, days),
                Codeviation(second, q, second, q, days), k, c);
  }

  lemma {:induction false} RatioOnLine(root: Root, v: real, mixed: real, other: real, k: real, c: real)
    requires IsRoot(root) && v > 0.0 && mixed == k * v && other == k * k * v && RatioOf(root, v, mixed, other, c)
    ensures k > 0.0 ==> c == 1.0
    ensures k < 0.0 ==> c == -1.0
  {
    hide IsRoot;
    SquareIsNotNegative(k);
    TimesNotNegative(k * k, v);
    TimesNotNegative(v, other);
    RootSquares(root, v * other);
    RootOfLine(v, k, root(v * other), c);
  }

  lemma {:induction false} NotConstant(first: map<nat, real>, second: map<nat, real>, p: real, d: nat, e: nat)
    requires d in first && d in second && e in first && e in second && first[d] != first[e]
    ensures var days := SharedDays(first, second); !(forall i :: 0 <= i < |days| ==> first[days[i]] == p)
  {
    hide SortedDays;
    var days := SharedDays(first, second);
    SortedDaysSorts(first.Keys * second.Keys);
    assert d in days && e in days;
    var i :| 0 <= i < |days| && days[i] == d;
    var j :| 0 <= j < |days| && days[j] == e;
    assert first[days[i]] != first[days[j]];
  }

  lemma {:induction false} Slope(k: real, m: real, x: real, y: real)
    requires k != 0.0 && x != y
    ensures k * x + m != k * y + m
  {
    assert k * (x - y) != 0.0;
  }

  // ----- daily returns -----

  /** A normalised bar; bars come sorted by day. */
  datatype Bar = Bar(day: nat, close: real)

  predicate ByDay(bars: seq<Bar>) {
    forall i, j :: 0 <= i < j < |bars| ==> bars[i].day < bars[j].day
  }

  function ReturnAt(bars: seq<Bar>, k: nat): real
    requires 0 < k < |bars| && bars[k - 1].close > 0.0
  {
    bars[k].close / bars[k - 1].close - 1.0
  }

  /** `returns_from_closes`: a return over a close that is not positive is left out. */
  function Returns(bars: seq<Bar>): (values: seq<real>)
    ensures |values| <= if bars == [] then 0 else |bars| - 1
  {
    if |bars| <= 1 then []
    else
      Returns(bars[..|bars| - 1]) + if bars[|bars| - 2].close > 0.0 then [ReturnAt(bars, |bars| - 1)] else []
  }

  function LastBars(bars: seq<Bar>, lookback: nat): seq<Bar> {
    if |bars| <= lookback + 1 then bars else bars[|bars| - (lookback + 1)..]
  }

  /** The first n returns, zipped with the days from the second on. */
  function Zipped(bars: seq<Bar>, values: seq<real>, n: nat): (series: map<nat, real>)
    requires n <= |values| && (n > 0 ==> n < |bars|)
    decreases n
  {
    if n == 0 then map[] else Zipped(bars, values, n - 1)[bars[n].day := values[n - 1]]
  }

  /** `_returns` */
  function DailyReturns(bars: seq<Bar>, lookback: nat): map<nat, real> {
    var rows := LastBars(bars, lookback);
    Zipped(rows, Returns(rows), |Returns(rows)|)
  }

  predicate OwnReturn(bars: seq<Bar>, series: map<nat, real>, k: nat)
    requires 0 < k < |bars|
  {
    bars[k - 1].close > 0.0 && bars[k].day in series && series[bars[k].day] == ReturnAt(bars, k)
  }

  /** Every day but the first has its own return. */
  predicate OwnReturns(bars: seq<Bar>, series: map<nat, real>) {
    forall k :: 0 < k < |bars| ==> OwnReturn(bars, series, k)
  }

  predicate PositiveBeforeLast(bars: seq<Bar>) {
    forall k :: 0 <= k < |bars| - 1 ==> bars[k].close > 0.0
  }

  lemma {:induction false} ReturnsOfPositive(bars: seq<Bar>)
    ensures PositiveBeforeLast(bars) ==>
              |Returns(bars)| == (if bars == [] then 0 else |bars| - 1)
              && forall k :: 0 < k < |bars| ==> Returns(bars)[k - 1] == ReturnAt(bars, k)
    ensures !PositiveBeforeLast(bars) ==> |Returns(bars)| < |bars| - 1
  {
    if |bars| > 1 {
      var front := bars[..|bars| - 1];
      ReturnsOfPositive(front);
      assert PositiveBeforeLast(bars) <==> PositiveBeforeLast(front) && bars[|bars| - 2].close > 0.0;
      if PositiveBeforeLast(bars) {
        forall k | 0 < k < |bars|
          ensures Returns(bars)[k - 1] == ReturnAt(bars, k)
        {
          if k < |bars| - 1 {
            assert ReturnAt(front, k) == ReturnAt(bars, k);
          }
        }
      }
    }
  }

  lemma {:induction false} ZippedDays(bars: seq<Bar>, values: seq<real>, n: nat)
    requires ByDay(bars) && n <= |values| && (n > 0 ==> n < |bars|)
    ensures forall k :: 0 < k < |bars| ==> (bars[k].day in Zipped(bars, values, n) <==> k <= n)
    ensures forall k :: 0 < k <= n ==> Zipped(bars, values, n)[bars[k].day] == values[k - 1]
    decreases n
  {
    if n > 0 {
      ZippedDays(bars, values, n - 1);
    }
  }

  /** The series holds each day's own return if and only if no close but the last is zero or negative: one such close shifts all
      later returns to an earlier day, and the last day has none. */
  lemma {:induction false} ReturnsAreDated(bars: seq<Bar>, lookback: nat)
    requires ByDay(LastBars(bars, lookback))
    ensures OwnReturns(LastBars(bars, lookback), DailyReturns(bars, lookback)) <==> PositiveBeforeLast(LastBars(bars, lookback))
  {
    hide Zipped, Returns, LastBars;
    var rows := LastBars(bars, lookback);
    ReturnsOfPositive(rows);
    ZippedDays(rows, Returns(rows), |Returns(rows)|);
    if !PositiveBeforeLast(rows) {
      assert 0 < |rows| - 1 < |rows|;
      assert rows[|rows| - 1].day !in DailyReturns(bars, lookback);
      assert !OwnReturn(rows, DailyReturns(bars, lookback), |rows| - 1);
    }
  }

  /** Over positive closes, the series has the last days, at most `lookback` of them and never the first bar's; and one plus a day's
      return, times the close before, is the day's close. */
  lemma {:induction false} ReturnsAreExact(bars: seq<Bar>, lookback: nat, k: nat)
    requires ByDay(bars) && k < |bars| && forall i :: 0 <= i < |bars| ==> bars[i].close > 0.0
    ensures var series := DailyReturns(bars, lookback);
            && (bars[k].day in series <==> k >= 1 && k >= |bars| - lookback)
            && (bars[k].day in series && k >= 1 ==> Compounds(bars[k - 1].close, series[bars[k].day], bars[k].close))
  {
    hide DailyReturns, ReturnAt, Compounds;
    var rows := LastBars(bars, lookback);
    var skipped := |bars| - |rows|;
    assert forall i :: 0 <= i < |rows| ==> rows[i] == bars[skipped + i];
    ReturnsOfRows(bars, lookback);
    hide LastBars;
    if k > skipped {
      var at := k - skipped;
      assert rows[at] == bars[k] && rows[at - 1] == bars[k - 1];
      CloseAfterReturn(rows, at);
    }
  }

  predicate Compounds(before: real, change: real, after: real) {
    (1.0 + change) * before == after
  }

  lemma {:induction false} CloseAfterReturn(bars: seq<Bar>, k: nat)
    requires 0 < k < |bars| && bars[k - 1].close > 0.0
    ensures Compounds(bars[k - 1].close, ReturnAt(bars, k), bars[k].close)
  {
    var ratio := bars[k].close / bars[k - 1].close;
    assert ratio * bars[k - 1].close == bars[k].close;
  }

  lemma {:induction false} ReturnsOfRows(bars: seq<Bar>, lookback: nat)
    requires ByDay(LastBars(bars, lookback)) && forall i :: 0 <= i < |LastBars(bars, lookback)| ==> LastBars(bars, lookback)[i].close > 0.0
    ensures var rows, series := LastBars(bars, lookback), DailyReturns(bars, lookback);
            && (forall i :: 1 <= i < |rows| ==> rows[i].day in series && series[rows[i].day] == ReturnAt(rows, i))
            && forall d :: d in series ==> exists i :: 1 <= i < |rows| && rows[i].day == d
  {
    hide Zipped, Returns, LastBars;
    var rows := LastBars(bars, lookback);
    ReturnsOfPositive(rows);
    ZippedDays(rows, Returns(rows), |Returns(rows)|);
    forall d | d in DailyReturns(bars, lookback)
      ensures exists i :: 1 <= i < |rows| && rows[i].day == d
    {
      ZippedOnly(rows, Returns(rows), |Returns(rows)|, d);
    }
  }

  lemma {:induction false} ZippedOnly(bars: seq<Bar>, values: seq<real>, n: nat, day: nat)
    requires n <= |values| && (n > 0 ==> n < |bars|)
    ensures day in Zipped(bars, values, n) ==> exists i :: 1 <= i <= n && bars[i].day == day
    decreases n
  {
    if n > 0 {
      ZippedOnly(bars, values, n - 1, day);
    }
  }

  /** An instance: the return of day 4 is stored under day 3. */
  lemma {:induction false} ReturnsShift()
    ensures var bars := [Bar(1, 1.0), Bar(2, 0.0), Bar(3, 1.0), Bar(4, 3.0)];
            DailyReturns(bars, CORRELATION_LOOKBACK_DAYS) == map[2 := -1.0, 3 := 2.0] && ReturnAt(bars, 3) == 2.0
  {
    var bars := [Bar(1, 1.0), Bar(2, 0.0), Bar(3, 1.0), Bar(4, 3.0)];
    assert bars[..3] == [Bar(1, 1.0), Bar(2, 0.0), Bar(3, 1.0)] && bars[..3][..2] == [Bar(1, 1.0), Bar(2, 0.0)];
    assert Returns(bars[..3][..2][..1]) == [];
    assert Returns(bars[..3][..2]) == [-1.0];
    assert Returns(bars[..3]) == [-1.0];
    assert Returns(bars) == [-1.0, 2.0];
    assert Zipped(bars, [-1.0, 2.0], 1) == map[2 := -1.0];
    assert Zipped(bars, [-1.0, 2.0], 2) == map[2 := -1.0, 3 := 2.0];
  }

  // ----- positions -----

  /** A held position; `None` is a weight that is no finite number. */
  datatype Position = Position(code: string, weight: Option<real>)

  datatype Held = Held(code: string, opportunity: Option<real>, keep: Option<real>, confidence: Option<real>, coverage: Option<real>)

  datatype Settings = Settings(probeWeight: real, minSpendable: real, keepMax: real)

  datatype Funding = CashFunded | ReplacementReview | Unfunded

  function Weight(p: Position): real {
    Max(0.0, if p.weight.Some? then p.weight.value else 0.0)
  }

  /** Weight by code; the last row of a code wins, rows without a code are dropped. */
  function Weights(positions: seq<Position>): map<string, real> {
    if positions == [] then map[]
    else
      var last := positions[|positions| - 1];
      var before := Weights(positions[..|positions| - 1]);
      if last.code == "" then before else before[last.code := Weight(last)]
  }

  lemma {:induction false} WeightsAreNotNegative(positions: seq<Position>)
    ensures NoneNegative(Weights(positions))
  {
    if positions != [] {
      WeightsAreNotNegative(positions[..|positions| - 1]);
    }
  }

  /** What a position weighs: its number, but nothing when that is negative or missing. */
  predicate Weighs(p: Position, weight: real) {
    if p.weight.Some? && p.weight.value > 0.0 then weight == p.weight.value else weight == 0.0
  }

  /** The last row with the code. */
  predicate LastWith(positions: seq<Position>, i: nat, code: string) {
    i < |positions| && positions[i].code == code && forall j :: i < j < |positions| ==> positions[j].code != code
  }

  /** A code has a weight exactly when it is no empty text and some row has it; the weight is that of its last row. */
  lemma {:induction false} WeightsAreExact(positions: seq<Position>, code: string)
    ensures code in Weights(positions) <==> code != "" && exists i: nat :: LastWith(positions, i, code)
    ensures forall i: nat :: code != "" && LastWith(positions, i, code) ==> Weighs(positions[i], Weights(positions)[code])
  {
    if positions != [] {
      var n := |positions| - 1;
      WeightsAreExact(positions[..n], code);
      assert positions[n].code == code ==> LastWith(positions, n, code);
      if positions[n].code != code {
        assert forall i: nat :: LastWith(positions[..n], i, code) <==> LastWith(positions, i, code);
      }
    }
  }

  /** The average correlation with the held positions: a running weighted mean, and the running maximum. */
  method AverageCorrelation(
    root: Root, candidate: map<nat, real>, positions: seq<Position>, holdings: map<string, map<nat, real>>)
    returns (average: Option<real>, highest: Option<real>)
    requires IsRoot(root)
    ensures average.Some? ==> -1.0 <= average.value <= 1.0
    ensures IsAverage(Correlated(root, candidate, positions, holdings), average, highest)
  {
    hide Correlation, IsRoot, WeightedSum, TotalWeight;
    var weightedSum, denominator := 0.0, 0.0;
    highest := None;
    NoWeights();
    for i := 0 to |positions|
      invariant weightedSum == WeightedSum(Correlated(root, candidate, positions[..i], holdings))
      invariant denominator == TotalWeight(Correlated(root, candidate, positions[..i], holdings))
      invariant match highest
                case None => Correlated(root, candidate, positions[..i], holdings) == []
                case Some(h) => IsHighest(Correlated(root, candidate, positions[..i], holdings), h)
    {
      var position := positions[i];
      ghost var before := Correlated(root, candidate, positions[..i], holdings);
      assert positions[..i + 1][..i] == positions[..i];
      if position.code != "" && position.code in holdings {
        var (corr, _) := Correlation(root, candidate, holdings[position.code], CORRELATION_MIN_SAMPLES);
        if corr.Some? {
          var weight := Weight(position);
          AddItem(before, Weighted(corr.value, weight), highest);
          weightedSum := weightedSum + corr.value * weight;
          denominator := denominator + weight;
          highest := Some(if highest.None? then corr.value else Max(highest.value, corr.value));
        }
      }
    }
    assert positions[..|positions|] == positions;
    average := None;
    if denominator > 0.0 {
      CorrelatedWithin(root, candidate, positions, holdings);
      MeanWithin(Correlated(root, candidate, positions, holdings), -1.0, 1.0);
      average := Some(weightedSum / denominator);
    }
  }

  /** The correlations that exist, with the weights of their positions. */
  function Correlated(
    root: Root, candidate: map<nat, real>, positions: seq<Position>, holdings: map<string, map<nat, real>>): seq<Weighted>
    requires IsRoot(root)
  {
    if positions == [] then []
    else
      var last := positions[|positions| - 1];
      var before := Correlated(root, candidate, positions[..|positions| - 1], holdings);
      if last.code == "" || last.code !in holdings then before
      else
        var (corr, _) := Correlation(root, candidate, holdings[last.code], CORRELATION_MIN_SAMPLES);
        if corr.None? then before else before + [Weighted(corr.value, Weight(last))]
  }

  /** The held position with the correlation c and the weight w. */
  ghost predicate Correlates(
    root: Root, candidate: map<nat, real>, position: Position, holdings: map<string, map<nat, real>>, item: Weighted)
    requires IsRoot(root)
  {
    position.code != "" && position.code in holdings && Weighs(position, item.weight)
    && Correlation(root, candidate, holdings[position.code], 40).0 == Some(item.value)
  }

  /** The correlations that are averaged are those of the held positions with a history, each with the position's weight. */
  lemma {:induction false} CorrelatedIsExact(
    root: Root, candidate: map<nat, real>, positions: seq<Position>, holdings: map<string, map<nat, real>>, item: Weighted)
    requires IsRoot(root)
    ensures item in Correlated(root, candidate, positions, holdings) <==>
            exists i :: 0 <= i < |positions| && Correlates(root, candidate, positions[i], holdings, item)
  {
    hide Correlation, IsRoot;
    if positions != [] {
      var n := |positions| - 1;
      CorrelatedIsExact(root, candidate, positions[..n], holdings, item);
      assert forall i :: 0 <= i < n ==> positions[..n][i] == positions[i];
      assert positions[n] == positions[|positions| - 1];
    }
  }

  /** The weighted mean of the items, if they weigh anything, and the highest of them, if there are any. */
  predicate IsAverage(items: seq<Weighted>, average: Option<real>, highest: Option<real>) {
    && (average.Some? <==> TotalWeight(items) > 0.0)
    && (average.Some? ==> average.value * TotalWeight(items) == WeightedSum(items))
    && (if highest.None? then items == [] else IsHighest(items, highest.value))
  }

  predicate IsHighest(items: seq<Weighted>, h: real) {
    (exists i :: 0 <= i < |items| && items[i].value == h) && forall i :: 0 <= i < |items| ==> items[i].value <= h
  }

  lemma {:induction false} NoWeights()
    ensures WeightedSum([]) == 0.0 && TotalWeight([]) == 0.0
  {
  }

  lemma {:induction false} AddItem(items: seq<Weighted>, item: Weighted, highest: Option<real>)
    requires if highest.None? then items == [] else IsHighest(items, highest.value)
    ensures WeightedSum(items + [item]) == WeightedSum(items) + item.value * item.weight
    ensures TotalWeight(items + [item]) == TotalWeight(items) + item.weight
    ensures IsHighest(items + [item], if highest.None? then item.value else Max(highest.value, item.value))
  {
    var all := items + [item];
    assert all[..|all| - 1] == items && all[|items|] == item;
    if highest.Some? && highest.value >= item.value {
      var i :| 0 <= i < |items| && items[i].value == highest.value;
      assert all[i].value == highest.value;
    }
  }

  lemma {:induction false} CorrelatedWithin(
    root: Root, candidate: map<nat, real>, positions: seq<Position>, holdings: map<string, map<nat, real>>)
    requires IsRoot(root)
    ensures Within(Correlated(root, candidate, positions, holdings), -1.0, 1.0)
  {
    hide Correlation, IsRoot;
    if positions != [] {
      CorrelatedWithin(root, candidate, positions[..|positions| - 1], holdings);
      var last := positions[|positions| - 1];
      if last.code != "" && last.code in holdings {
        CorrelationBounds(root, candidate, holdings[last.code], CORRELATION_MIN_SAMPLES);
        var (corr, samples) := Correlation(root, candidate, holdings[last.code], CORRELATION_MIN_SAMPLES);
        assert corr.Some? ==> -1.0 <= corr.value <= 1.0 && Weight(last) >= 0.0;
      }
    }
  }

  // ----- funding the probe -----

  /** A held position that may make room for the probe. */
  datatype Source = Source(weakness: real, opportunity: real, code: string, weight: real)

  /** `(weakness, opportunity, code)` in tuple order */
  predicate Weaker(a: Source, b: Source) {
    a.weakness < b.weakness
    || (a.weakness == b.weakness
        && (a.opportunity < b.opportunity || (a.opportunity == b.opportunity && Earlier(a.code, b.code))))
  }

  /** A weak but auditable held position, if this row is one. */
  function AsSource(row: Held, weights: map<string, real>, settings: Settings): Option<Source> {
    var weight := if row.code in weights then weights[row.code] else 0.0;
    if row.code == "" || weight <= 0.0 then None
    else if row.opportunity.None? && row.keep.None? then None
    else if row.confidence.Some? && row.confidence.value < 50.0 then None
    else if row.coverage.Some? && row.coverage.value < 0.5 then None
    else
      var weakness := if row.keep.None? then row.opportunity.value
                      else if row.opportunity.None? then row.keep.value else Min(row.keep.value, row.opportunity.value);
      if weakness > settings.keepMax then None
      else Some(Source(weakness, if row.opportunity.Some? then row.opportunity.value else weakness, row.code, weight))
  }

  lemma {:induction false} WeakerChains(a: Source, b: Source, c: Source)
    requires Weaker(a, b) && !Weaker(c, b)
    ensures !Weaker(c, a)
  {
    TextsAreOrdered(b.code, c.code);
    TextsAreOrdered(a.code, c.code);
    if Earlier(a.code, b.code) && Earlier(b.code, c.code) {
      EarlierChains(a.code, b.code, c.code);
    }
  }

  /** The row is a weak but auditable held position, described as `source`: it has a positive weight and at least one score, no
      confidence below 50 and no coverage below a half, and its weaker score is at most the limit. */
  predicate MayMakeRoom(row: Held, weights: map<string, real>, settings: Settings, source: Source) {
    && row.code == source.code != "" && source.code in weights && weights[source.code] == source.weight > 0.0
    && (row.keep == Some(source.weakness) || row.opportunity == Some(source.weakness))
    && (row.keep.Some? ==> source.weakness <= row.keep.value)
    && (row.opportunity.Some? ==> source.weakness <= row.opportunity.value == source.opportunity)
    && (row.opportunity.None? ==> source.opportunity == source.weakness)
    && (row.confidence.Some? ==> row.confidence.value >= 50.0) && (row.coverage.Some? ==> row.coverage.value >= 0.5)
    && source.weakness <= settings.keepMax
  }

  lemma {:induction false} AsSourceIsExact(row: Held, weights: map<string, real>, settings: Settings, source: Source)
    ensures AsSource(row, weights, settings) == Some(source) <==> MayMakeRoom(row, weights, settings, source)
  {
  }

  /** Of two sources the first has the smaller weakness; or the smaller opportunity beside the same weakness; or beside both
      the same, the earlier code or the same one. */
  predicate ComesFirst(first: Source, second: Source) {
    || first.weakness < second.weakness
    || (first.weakness == second.weakness && first.opportunity < second.opportunity)
    || (first.weakness == second.weakness && first.opportunity == second.opportunity
        && (first.code == second.code || Earlier(first.code, second.code)))
  }

  lemma {:induction false} NotWeakerComesFirst(first: Source, second: Source)
    ensures !Weaker(second, first) <==> ComesFirst(first, second)
  {
    TextsAreOrdered(first.code, second.code);
  }

  /** An eligible row, and it comes first among the eligible ones. */
  ghost predicate IsWeakest(rows: seq<Held>, weights: map<string, real>, settings: Settings, source: Source) {
    && (exists i :: 0 <= i < |rows| && MayMakeRoom(rows[i], weights, settings, source))
    && forall i, other :: 0 <= i < |rows| && MayMakeRoom(rows[i], weights, settings, other) ==> ComesFirst(source, other)
  }

  ghost predicate NoneEligible(rows: seq<Held>, weights: map<string, real>, settings: Settings) {
    forall i, source :: 0 <= i < |rows| ==> !MayMakeRoom(rows[i], weights, settings, source)
  }

  /** `_replacement_source`: the weakest eligible held position, the first of equals. */
  method ReplacementSource(
      rows: seq<Held>, positions: seq<Position>, settings: Settings) returns (source: Option<Source>)
    ensures source.None? <==> NoneEligible(rows, Weights(positions), settings)
    ensures source.Some? ==> IsWeakest(rows, Weights(positions), settings, source.value)
    ensures source.Some? ==>
              source.value.code in Weights(positions) && 0.0 < Weights(positions)[source.value.code] == source.value.weight
  {
    hide Weaker, AsSource, MayMakeRoom, ComesFirst;
    var weights := Weights(positions);
    source := None;
    for i := 0 to |rows|
      invariant source.None? <==> NoneEligible(rows[..i], weights, settings)
      invariant source.Some? ==> IsWeakest(rows[..i], weights, settings, source.value)
    {
      var next := AsSource(rows[i], weights, settings);
      assert rows[..i + 1] == rows[..i] + [rows[i]];
      NextRow(rows[..i], rows[i], weights, settings, source);
      if next.Some? && (source.None? || Weaker(next.value, source.value)) {
        source := next;
      }
    }
    assert rows[..|rows|] == rows;
    assert source.Some? ==> source.value.code in weights && 0.0 < weights[source.value.code] == source.value.weight by {
      if source.Some? {
        var i :| 0 <= i < |rows| && MayMakeRoom(rows[i], weights, settings, source.value);
        EligibleIsHeld(rows[i], weights, settings, source.value);
      }
    }
  }

  lemma {:induction false} EligibleIsHeld(row: Held, weights: map<string, real>, settings: Settings, source: Source)
    requires MayMakeRoom(row, weights, settings, source)
    ensures source.code in weights && 0.0 < weights[source.code] == source.weight
  {
  }

  lemma {:induction false} NextRow(
      rows: seq<Held>, row: Held, weights: map<string, real>, settings: Settings, source: Option<Source>)
    requires source.None? <==> NoneEligible(rows, weights, settings)
    requires source.Some? ==> IsWeakest(rows, weights, settings, source.value)
    ensures var next := AsSource(row, weights, settings);
            var best := if next.Some? && (source.None? || Weaker(next.value, source.value)) then next else source;
            && (best.None? <==> NoneEligible(rows + [row], weights, settings))
            && (best.Some? ==> IsWeakest(rows + [row], weights, settings, best.value))
  {
    hide Weaker, AsSource, MayMakeRoom, ComesFirst;
    var next, all := AsSource(row, weights, settings), rows + [row];
    forall other: Source
      ensures MayMakeRoom(row, weights, settings, other) <==> next == Some(other)
    {
      AsSourceIsExact(row, weights, settings, other);
    }
    assert forall i :: 0 <= i < |rows| ==> all[i] == rows[i];
    assert all[|rows|] == row;
    if next.Some? {
      NotWeakerThanItself(next.value);
      NotWeakerComesFirst(next.value, next.value);
      if source.Some? {
        NotWeakerComesFirst(source.value, next.value);
        if Weaker(next.value, source.value) {
          forall i, other | 0 <= i < |rows| && MayMakeRoom(rows[i], weights, settings, other)
            ensures ComesFirst(next.value, other)
          {
            NotWeakerComesFirst(source.value, other);
            WeakerChains(next.value, source.value, other);
            NotWeakerComesFirst(next.value, other);
          }
        }
      }
    }
  }

  lemma {:induction false} NotWeakerThanItself(s: Source)
    ensures !Weaker(s, s)
  {
    TextsAreOrdered(s.code, s.code);
  }

  datatype Candidate = Candidate(code: string, currentWeight: Option<real>, cap: Option<real>)

  datatype Cash = Cash(ratio: Option<real>, spendable: Option<real>, totalAssets: Option<real>)

  datatype Probe = Probe(weight: real, funding: Funding, source: string)

  function CashRatio(cash: Cash): Option<real> {
    if cash.ratio.None? && cash.spendable.Some? && cash.totalAssets.Some? && cash.totalAssets.value > 0.0
    then Some(cash.spendable.value / cash.totalAssets.value) else cash.ratio
  }

  function Existing(candidate: Candidate): real {
    Max(0.0, if candidate.currentWeight.Some? then candidate.currentWeight.value else 0.0)
  }

  function Headroom(candidate: Candidate): Option<real> {
    if candidate.cap.None? then None else Some(Max(0.0, candidate.cap.value - Existing(candidate)))
  }

  function Capped(weight: real, headroom: Option<real>): real {
    if headroom.None? then weight else Min(weight, headroom.value)
  }

  /** The ratio of cash as it is stated, or else of spendable cash to positive total assets. */
  predicate IsCashRatio(cash: Cash, ratio: real) {
    if cash.ratio.Some? then cash.ratio.value == ratio
    else cash.spendable.Some? && cash.totalAssets.Some? && cash.totalAssets.value > 0.0
         && ratio * cash.totalAssets.value == cash.spendable.value
  }

  lemma {:induction false} CashRatioIsExact(cash: Cash, ratio: real)
    ensures CashRatio(cash) == Some(ratio) <==> IsCashRatio(cash, ratio)
  {
    if cash.ratio.None? && cash.spendable.Some? && cash.totalAssets.Some? && cash.totalAssets.value > 0.0 {
      var total, quotient := cash.totalAssets.value, cash.spendable.value / cash.totalAssets.value;
      assert quotient * total == cash.spendable.value;
      if ratio * total == cash.spendable.value {
        SameFactor(ratio, quotient, total);
      }
    }
  }

  /** Neither the probe weight of the settings, nor what is available, nor the room under the candidate's cap is exceeded, and
      one of them is reached. A candidate over its cap has no room, and none of its weight is counted as negative. */
  predicate IsLargestProbe(candidate: Candidate, settings: Settings, available: real, weight: real) {
    var held := if candidate.currentWeight.Some? && candidate.currentWeight.value > 0.0 then candidate.currentWeight.value else 0.0;
    && weight <= settings.probeWeight && weight <= available
    && (candidate.cap.Some? ==> weight <= candidate.cap.value - held || (weight <= 0.0 && candidate.cap.value < held))
    && (weight == settings.probeWeight || weight == available
        || (candidate.cap.Some? && weight == if candidate.cap.value > held then candidate.cap.value - held else 0.0))
  }

  lemma {:induction false} CappedIsLargest(candidate: Candidate, settings: Settings, available: real, weight: real)
    ensures weight == Capped(Min(settings.probeWeight, available), Headroom(candidate)) <==>
            IsLargestProbe(candidate, settings, available, weight)
  {
  }

  /** The cash there is pays for a probe of this weight, the largest one possible, and that is enough. */
  ghost predicate CashPays(candidate: Candidate, cash: Cash, settings: Settings, weight: real) {
    exists ratio :: IsCashRatio(cash, ratio) && IsLargestProbe(candidate, settings, ratio, weight) && weight >= settings.minSpendable
  }

  /** How a probe is funded: from cash if cash pays for it; else at the cost of the weakest eligible position, if that leaves room
      for enough; else not at all. */
  ghost predicate IsFunded(
      candidate: Candidate, cash: Cash, rows: seq<Held>, positions: seq<Position>, settings: Settings, probe: Probe)
  {
    if probe.funding == CashFunded then CashPays(candidate, cash, settings, probe.weight) && probe.source == ""
    else
      && (forall w :: !CashPays(candidate, cash, settings, w))
      && if probe.funding == ReplacementReview then
           exists source ::
             IsWeakest(rows, Weights(positions), settings, source) && probe.source == source.code
             && IsLargestProbe(candidate, settings, source.weight, probe.weight) && probe.weight >= settings.minSpendable
         else
           && probe.weight == 0.0 && probe.source == ""
           && forall source, w ::
                IsWeakest(rows, Weights(positions), settings, source) && IsLargestProbe(candidate, settings, source.weight, w) ==>
                  w < settings.minSpendable
  }

  /** Cash comes first; else the weakest held position is asked to make room; else there is no probe. */
  method FundProbe(
      candidate: Candidate, cash: Cash, rows: seq<Held>, positions: seq<Position>, settings: Settings)
      returns (probe: Probe)
    ensures probe.funding == Unfunded ==> probe.weight == 0.0
    ensures probe.funding != Unfunded ==> settings.minSpendable <= probe.weight <= settings.probeWeight
    ensures probe.funding != Unfunded && candidate.cap.Some? ==> probe.weight <= Headroom(candidate).value
    ensures probe.funding == ReplacementReview ==>
              probe.source in Weights(positions) && 0.0 < Weights(positions)[probe.source]
              && probe.weight <= Weights(positions)[probe.source]
    ensures IsFunded(candidate, cash, rows, positions, settings, probe)
  {
    hide Weights, AsSource, Weaker, IsWeakest, NoneEligible, IsCashRatio, CashRatio, IsLargestProbe;
    var ratio, headroom := CashRatio(cash), Headroom(candidate);
    CashPaysExactly(candidate, cash, settings);
    if ratio.Some? && Capped(Min(settings.probeWeight, ratio.value), headroom) >= settings.minSpendable {
      return Probe(Capped(Min(settings.probeWeight, ratio.value), headroom), CashFunded, "");
    }
    var source := ReplacementSource(rows, positions, settings);
    WeakestIsExact(rows, Weights(positions), settings, source);
    if source.Some? {
      var weight := Capped(Min(settings.probeWeight, source.value.weight), headroom);
      forall w
        ensures IsLargestProbe(candidate, settings, source.value.weight, w) <==> w == weight
      {
        CappedIsLargest(candidate, settings, source.value.weight, w);
      }
      if weight >= settings.minSpendable {
        return Probe(weight, ReplacementReview, source.value.code);
      }
    }
    return Probe(0.0, Unfunded, "");
  }

  lemma {:induction false} CashPaysExactly(candidate: Candidate, cash: Cash, settings: Settings)
    ensures forall w :: CashPays(candidate, cash, settings, w) <==>
              CashRatio(cash).Some? && w >= settings.minSpendable
              && w == Capped(Min(settings.probeWeight, CashRatio(cash).value), Headroom(candidate))
  {
    hide IsCashRatio, CashRatio, IsLargestProbe, Capped, Headroom;
    forall w
      ensures CashPays(candidate, cash, settings, w) <==>
              CashRatio(cash).Some? && w >= settings.minSpendable
              && w == Capped(Min(settings.probeWeight, CashRatio(cash).value), Headroom(candidate))
    {
      if ratio :| IsCashRatio(cash, ratio) && IsLargestProbe(candidate, settings, ratio, w) && w >= settings.minSpendable {
        CashRatioIsExact(cash, ratio);
        CappedIsLargest(candidate, settings, ratio, w);
      } else if CashRatio(cash).Some? {
        CashRatioIsExact(cash, CashRatio(cash).value);
        CappedIsLargest(candidate, settings, CashRatio(cash).value, w);
      }
    }
  }

  lemma {:induction false} WeakestIsExact(
      rows: seq<Held>, weights: map<string, real>, settings: Settings, source: Option<Source>)
    requires source.None? <==> NoneEligible(rows, weights, settings)
    requires source.Some? ==> IsWeakest(rows, weights, settings, source.value)
    ensures forall other :: IsWeakest(rows, weights, settings, other) <==> source == Some(other)
  {
    hide MayMakeRoom, ComesFirst;
    forall other | IsWeakest(rows, weights, settings, other)
      ensures source == Some(other)
    {
      var i :| 0 <= i < |rows| && MayMakeRoom(rows[i], weights, settings, other);
      var j :| 0 <= j < |rows| && MayMakeRoom(rows[j], weights, settings, source.value);
      BothFirst(rows[i], other, rows[j], source.value, weights, settings);
    }
  }

  lemma {:induction false} BothFirst(
      row: Held, a: Source, other: Held, b: Source, weights: map<string, real>, settings: Settings)
    requires MayMakeRoom(row, weights, settings, a) && MayMakeRoom(other, weights, settings, b)
    requires ComesFirst(a, b) && ComesFirst(b, a)
    ensures a == b
  {
    TextsAreOrdered(a.code, b.code);
  }

  // ----- projected weights -----

  ghost function SumWeights(weights: map<string, real>): real
    decreases |weights|
  {
    if weights == map[] then 0.0
    else
      var k :| k in weights;
      weights[k] + SumWeights(weights - {k})
  }

  lemma {:induction false} SumWithout(weights: map<string, real>, k: string)
    requires k in weights
    ensures SumWeights(weights) == weights[k] + SumWeights(weights - {k})
    decreases |weights|
  {
    var first :| first in weights && SumWeights(weights) == weights[first] + SumWeights(weights - {first});
    if first != k {
      SumWithout(weights - {first}, k);
      SumWithout(weights - {k}, first);
      assert weights - {first} - {k} == weights - {k} - {first};
    }
  }

  lemma {:induction false} SumAfterPut(weights: map<string, real>, k: string, value: real)
    ensures SumWeights(weights[k := value]) == SumWeights(weights) - (if k in weights then weights[k] else 0.0) + value
  {
    SumWithout(weights[k := value], k);
    if k in weights {
      SumWithout(weights, k);
      assert weights[k := value] - {k} == weights - {k};
    } else {
      assert weights[k := value] - {k} == weights;
    }
  }

  function WeightOf(weights: map<string, real>, code: string): real {
    if code in weights then weights[code] else 0.0
  }

  /** The weights after the probe is bought: a replacement makes room first. */
  function Projected(weights: map<string, real>, code: string, probe: Probe): map<string, real> {
    var room := if probe.funding == ReplacementReview && probe.source != ""
                then weights[probe.source := Max(0.0, WeightOf(weights, probe.source) - Max(0.0, probe.weight))] else weights;
    room[code := WeightOf(room, code) + Max(0.0, probe.weight)]
  }

  predicate NoneNegative(weights: map<string, real>) {
    forall k :: k in weights ==> weights[k] >= 0.0
  }

  /** A replacement leaves the sum of weights unchanged, cash adds exactly the probe, and no funding changes nothing. */
  lemma {:induction false} ProbeConservesWeight(weights: map<string, real>, code: string, probe: Probe)
    requires probe.funding == Unfunded ==> probe.weight == 0.0
    requires probe.funding == ReplacementReview ==>
               probe.source != "" && probe.source in weights && 0.0 < weights[probe.source] && probe.weight <= weights[probe.source]
    ensures SumWeights(Projected(weights, code, probe))
            == SumWeights(weights) + if probe.funding == CashFunded then Max(0.0, probe.weight) else 0.0
    ensures NoneNegative(weights) ==> NoneNegative(Projected(weights, code, probe))
    ensures var made := if probe.funding == ReplacementReview && probe.source == code then Max(0.0, probe.weight) else 0.0;
            WeightOf(Projected(weights, code, probe), code) == WeightOf(weights, code) + Max(0.0, probe.weight) - made
    ensures forall k :: k != code && (probe.funding != ReplacementReview || k != probe.source) ==>
              WeightOf(Projected(weights, code, probe), k) == WeightOf(weights, k)
  {
    var left := WeightOf(weights, probe.source) - Max(0.0, probe.weight);
    var room := if probe.funding == ReplacementReview then weights[probe.source := Max(0.0, left)] else weights;
    SumAfterPut(weights, probe.source, Max(0.0, left));
    SumAfterPut(room, code, WeightOf(room, code) + Max(0.0, probe.weight));
  }

  /** `hard_cap_violation` */
  predicate ViolatesCap(candidate: Candidate, probe: Probe) {
    candidate.cap.Some? && Existing(candidate) + probe.weight > candidate.cap.value + 0.000000001
  }

  /** The weight already held exceeds the cap. */
  predicate HeldViolates(candidate: Candidate) {
    candidate.cap.Some?
    && (if candidate.currentWeight.Some? && candidate.currentWeight.value > 0.0 then candidate.currentWeight.value else 0.0)
       > candidate.cap.value + 0.000000001
  }

  /** The weight already held and the probe exceed the cap together. */
  predicate AddedViolates(candidate: Candidate, weight: real) {
    candidate.cap.Some?
    && weight > candidate.cap.value + 0.000000001
                - if candidate.currentWeight.Some? && candidate.currentWeight.value > 0.0 then candidate.currentWeight.value else 0.0
  }

  /** The probe never causes a violation; and unless the spendable minimum is negative, it never hides one. */
  lemma {:induction false} ProbeRespectsCap(candidate: Candidate, probe: Probe, settings: Settings)
    requires probe.funding == Unfunded ==> probe.weight == 0.0
    requires probe.funding != Unfunded ==> settings.minSpendable <= probe.weight
    requires probe.funding != Unfunded && candidate.cap.Some? ==> probe.weight <= Headroom(candidate).value
    ensures ViolatesCap(candidate, probe) <==> AddedViolates(candidate, probe.weight)
    ensures ViolatesCap(candidate, probe) ==> HeldViolates(candidate)
    ensures settings.minSpendable >= 0.0 ==> (ViolatesCap(candidate, probe) <==> HeldViolates(candidate))
  {
  }

  // ----- projected variance -----

  function ProjectedVariance(base: real, volatility: real, correlation: real, probe: Probe): real {
    var p := Max(0.0, probe.weight);
    if probe.funding == CashFunded then
      base * base + p * p * (volatility * volatility) + 2.0 * p * correlation * base * volatility
    else
      (1.0 - p) * (1.0 - p) * (base * base) + p * p * (volatility * volatility)
      + 2.0 * (1.0 - p) * p * correlation * base * volatility
  }

  /** x^2 + 2 c x y + y^2 is (x + c y)^2 + (1 - c^2) y^2 */
  lemma {:induction false} CorrelatedSquare(x: real, y: real, c: real)
    requires -1.0 <= c <= 1.0
    ensures x * x + y * y + 2.0 * c * (x * y) >= 0.0
  {
    var s := x + c * y;
    SquareIsNotNegative(s);
    SquareIsNotNegative(y);
    assert (1.0 - c) * (1.0 + c) == 1.0 - c * c;
    TimesNotNegative(1.0 - c, 1.0 + c);
    TimesNotNegative(1.0 - c * c, y * y);
    CompleteSquare(x, y, c);
  }

  lemma {:induction false} CompleteSquare(x: real, y: real, c: real)
    ensures x * x + y * y + 2.0 * c * (x * y) == (x + c * y) * (x + c * y) + (1.0 - c * c) * (y * y)
  {
  }

  lemma {:induction false} CashVarianceForm(base: real, volatility: real, c: real, p: real)
    ensures base * base + p * p * (volatility * volatility) + 2.0 * p * c * base * volatility
            == base * base + (p * volatility) * (p * volatility) + 2.0 * c * (base * (p * volatility))
  {
  }

  lemma {:induction false} MixedVarianceForm(base: real, volatility: real, c: real, p: real, q: real)
    ensures q * q * (base * base) + p * p * (volatility * volatility) + 2.0 * q * p * c * base * volatility
            == (q * base) * (q * base) + (p * volatility) * (p * volatility) + 2.0 * c * ((q * base) * (p * volatility))
  {
  }

  /** Both projected variances are never negative, for any base volatility and any probe: the outer maximum never binds. */
  lemma {:induction false} VarianceIsNotNegative(base: real, volatility: real, correlation: real, probe: Probe)
    requires -1.0 <= correlation <= 1.0
    ensures ProjectedVariance(base, volatility, correlation, probe) >= 0.0
    ensures Max(0.0, ProjectedVariance(base, volatility, correlation, probe))
            == ProjectedVariance(base, volatility, correlation, probe)
  {
    var p := Max(0.0, probe.weight);
    if probe.funding == CashFunded {
      CashVarianceForm(base, volatility, correlation, p);
      CorrelatedSquare(base, p * volatility, correlation);
    } else {
      MixedVarianceForm(base, volatility, correlation, p, 1.0 - p);
      CorrelatedSquare((1.0 - p) * base, p * volatility, correlation);
    }
  }

  /** The projected variance is the square of the sum at full correlation and of the difference at full opposition, and in
      between it moves on the line through both; a probe from cash leaves the base as it is, any other scales it down. */
  lemma {:induction false} VarianceIsExact(base: real, volatility: real, correlation: real, probe: Probe)
    ensures var p := if probe.weight > 0.0 then probe.weight else 0.0;
            var x, y := if probe.funding == CashFunded then base else (1.0 - p) * base, p * volatility;
            && ProjectedVariance(base, volatility, 1.0, probe) == (x + y) * (x + y)
            && ProjectedVariance(base, volatility, -1.0, probe) == (x - y) * (x - y)
            && ProjectedVariance(base, volatility, 0.0, probe) == x * x + y * y
            && 2.0 * ProjectedVariance(base, volatility, correlation, probe)
               == (1.0 + correlation) * ((x + y) * (x + y)) + (1.0 - correlation) * ((x - y) * (x - y))
  {
    var p := Max(0.0, probe.weight);
    var x, y := if probe.funding == CashFunded then base else (1.0 - p) * base, p * volatility;
    assert forall c :: ProjectedVariance(base, volatility, c, probe) == x * x + y * y + 2.0 * c * (x * y) by {
      forall c
        ensures ProjectedVariance(base, volatility, c, probe) == x * x + y * y + 2.0 * c * (x * y)
      {
        CashVarianceForm(base, volatility, c, p);
        MixedVarianceForm(base, volatility, c, p, 1.0 - p);
      }
    }
    Squares(x, y, correlation);
  }

  lemma {:induction false} Squares(x: real, y: real, c: real)
    ensures x * x + y * y + 2.0 * 1.0 * (x * y) == (x + y) * (x + y)
    ensures x * x + y * y + 2.0 * -1.0 * (x * y) == (x - y) * (x - y)
    ensures x * x + y * y + 2.0 * 0.0 * (x * y) == x * x + y * y
    ensures 2.0 * (x * x + y * y + 2.0 * c * (x * y)) == (1.0 + c) * ((x + y) * (x + y)) + (1.0 - c) * ((x - y) * (x - y))
  {
  }

  datatype Fit = Fit(
    probe: Probe, average: Option<real>, highest: Option<real>, projected: map<string, real>, violation: bool,
    volatility: Option<real>)

  /** `calculate_portfolio_fit` up to its score cards: correlation, funding, projected weights, cap check and projected
      volatility. The candidate's own volatility comes from its bars. */
  method CalculatePortfolioFit(
    root: Root, candidate: Candidate, returnsByDay: map<nat, real>, ownVolatility: Option<real>, baseVolatility: Option<real>,
    cash: Cash, rows: seq<Held>, positions: seq<Position>, holdings: map<string, map<nat, real>>, settings: Settings)
    returns (fit: Fit)
    requires IsRoot(root)
    ensures IsAverage(Correlated(root, returnsByDay, positions, holdings), fit.average, fit.highest)
    ensures IsFunded(candidate, cash, rows, positions, settings, fit.probe)
    ensures fit.projected == Projected(Weights(positions), candidate.code, fit.probe)
    ensures SumWeights(fit.projected)
            == SumWeights(Weights(positions)) + if fit.probe.funding == CashFunded then Max(0.0, fit.probe.weight) else 0.0
    ensures NoneNegative(fit.projected)
    ensures fit.violation <==> AddedViolates(candidate, fit.probe.weight)
    ensures fit.violation ==> HeldViolates(candidate)
    ensures settings.minSpendable >= 0.0 ==> (fit.violation <==> HeldViolates(candidate))
    ensures fit.probe.weight == 0.0 || settings.minSpendable <= fit.probe.weight <= settings.probeWeight
    ensures fit.average.Some? ==> -1.0 <= fit.average.value <= 1.0
    ensures fit.volatility.Some? <==> ownVolatility.Some?
    ensures fit.volatility.Some? ==>
              fit.volatility.value >= 0.0
              && fit.volatility.value * fit.volatility.value
                 == Variance(ownVolatility.value, baseVolatility, fit.average, fit.probe)
  {
    hide Weights, SumWeights, IsRoot, Variance, Correlated, WeightedSum, TotalWeight, Headroom, CashRatio, Projected,
      NoneNegative, IsHighest, ViolatesCap, Existing;
    var average, highest := AverageCorrelation(root, returnsByDay, positions, holdings);
    var probe := FundProbe(candidate, cash, rows, positions, settings);
    var weights := Weights(positions);
    NoEmptyCode(positions);
    ProbeConservesWeight(weights, candidate.code, probe);
    WeightsAreNotNegative(positions);
    var projected := Projected(weights, candidate.code, probe);
    ProbeRespectsCap(candidate, probe, settings);
    var volatility := ProjectVolatility(root, ownVolatility, baseVolatility, average, probe);
    return Fit(probe, average, highest, projected, ViolatesCap(candidate, probe), volatility);
  }

  /** The projected volatility is the exact root of the projected variance. */
  method ProjectVolatility(root: Root, own: Option<real>, held: Option<real>, average: Option<real>, probe: Probe)
    returns (volatility: Option<real>)
    requires IsRoot(root) && (average.Some? ==> -1.0 <= average.value <= 1.0)
    ensures volatility.Some? <==> own.Some?
    ensures volatility.Some? ==>
              volatility.value >= 0.0 && volatility.value * volatility.value == Variance(own.value, held, average, probe)
  {
    volatility := None;
    if own.Some? {
      var variance := Variance(own.value, held, average, probe);
      VarianceIsNotNegative(OrZero(held), own.value, OrZero(average), probe);
      RootSquares(root, variance);
      volatility := Some(root(Max(0.0, variance)));
    }
  }

  function OrZero(x: Option<real>): real {
    if x.Some? then x.value else 0.0
  }

  function Variance(own: real, held: Option<real>, average: Option<real>, probe: Probe): real {
    ProjectedVariance(OrZero(held), own, OrZero(average), probe)
  }

  lemma {:induction false} RootSquares(root: Root, x: real)
    requires IsRoot(root) && x >= 0.0
    ensures root(Max(0.0, x)) >= 0.0 && root(Max(0.0, x)) * root(Max(0.0, x)) == x
  {
  }

  lemma {:induction false} NoEmptyCode(positions: seq<Position>)
    ensures "" !in Weights(positions)
  {
    if positions != [] {
      NoEmptyCode(positions[..|positions| - 1]);
    }
  }
}
