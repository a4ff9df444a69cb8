/** Price factors over exact reals: drawdown, percentile rank and the weighted combination of components. */
module Factors {
  import opened Workflow

  // ----- drawdown -----

  /** `values[-window:]`: a window of zero keeps the whole list, a negative one drops from the front. */
  function Tail(values: seq<real>, window: int): seq<real> {
    if window > 0 then (if window < |values| then values[|values| - window..] else values)
    else if -window < |values| then values[-window..] else []
  }

  /** What is kept is the end of the list; how much of it depends on the sign of the window. */
  lemma {:induction false} TailIsSuffix(values: seq<real>, window: int)
    ensures |Tail(values, window)| == if window > |values| then |values| else if window > 0 then window
                                      else if -window < |values| then |values| + window else 0
    ensures Tail(values, window) == values[|values| - |Tail(values, window)|..]
  {
    assert values[0..] == values;
  }

  lemma {:induction false} TimesKeepsOrder(x: real, y: real, p: real)
    requires x < y && p > 0.0
    ensures x * p < y * p
  {
  }

  lemma {:induction false} CancelFactor(x: real, y: real, p: real)
    requires p > 0.0 && x * p <= y * p
    ensures x <= y
  {
    if y < x {
      TimesKeepsOrder(y, x, p);
    }
  }

  lemma {:induction false} DivideBounds(x: real, n: real, lower: real, upper: real)
    requires n > 0.0 && lower <= x <= upper
    ensures lower / n <= x / n <= upper / n
  {
    assert (lower / n) * n == lower && (x / n) * n == x && (upper / n) * n == upper;
    CancelFactor(lower / n, x / n, n);
    CancelFactor(x / n, upper / n, n);
  }

  lemma {:induction false} SmallerDivisor(x: real, p: real, q: real)
    requires 0.0 < p <= q && x >= 0.0
    ensures x / q <= x / p
  {
    var a, b := x / p, x / q;
    assert a * p == x && b * q == x;
    CancelFactor(0.0, a, p);
    assert a * p <= a * q;
    CancelFactor(b, a, q);
  }

  /** The fall from an earlier value to a later one, as a fraction. */
  function Fall(from: real, to: real): real
    requires from > 0.0
  {
    1.0 - to / from
  }

  function Drawdown(peak: real, value: real): real
    requires peak > 0.0
  {
    value / peak - 1.0
  }

  lemma {:induction false} HigherPeakFallsFurther(from: real, peak: real, to: real)
    requires 0.0 < from <= peak && to >= 0.0
    ensures Fall(from, to) <= Fall(peak, to)
  {
    SmallerDivisor(to, from, peak);
  }

  lemma {:induction false} FallRange(peak: real, to: real)
    requires peak > 0.0
    ensures to <= peak ==> Fall(peak, to) >= 0.0
    ensures to > 0.0 ==> Fall(peak, to) < 1.0
  {
    assert (to / peak) * peak == to;
    if to <= peak {
      CancelFactor(to / peak, 1.0, peak);
    }
    assert to > 0.0 ==> to / peak > 0.0;
  }

  /** A fall is the share of the earlier value that is lost. */
  lemma {:induction false} FallIsExact(from: real, to: real, d: real)
    requires from > 0.0
    ensures Fall(from, to) == d <==> d * from == from - to
  {
    var ratio := to / from;
    assert ratio * from == to;
    assert (1.0 - ratio) * from == from - to;
    if d * from == from - to {
      CancelFactor(d, 1.0 - ratio, from);
      CancelFactor(1.0 - ratio, d, from);
    }
  }

  /** d is a fall from some positive value to the same or a later one. */
  predicate IsFall(values: seq<real>, n: nat, d: real)
    requires n <= |values|
  {
    exists i, j :: 0 <= i <= j < n && values[i] > 0.0 && d == Fall(values[i], values[j])
  }

  /** No fall to a value that is not negative exceeds d. */
  predicate BoundsFalls(values: seq<real>, n: nat, d: real)
    requires n <= |values|
  {
    forall i, j :: 0 <= i <= j < n && values[i] > 0.0 && values[j] >= 0.0 ==> Fall(values[i], values[j]) <= d
  }

  function MinOf(drawdowns: seq<real>): real
    requires drawdowns != []
  {
    if |drawdowns| == 1 then drawdowns[0]
    else
      var before := MinOf(drawdowns[..|drawdowns| - 1]);
      if drawdowns[|drawdowns| - 1] < before then drawdowns[|drawdowns| - 1] else before
  }

  /** After n values: the peak is the largest of them, and the smallest drawdown is the largest fall. */
  predicate Tracks(values: seq<real>, n: nat, at: nat, drawdowns: seq<real>)
    requires at < n <= |values|
  {
    && (forall i :: 0 <= i < n ==> values[i] <= values[at])
    && (drawdowns == [] <==> values[at] <= 0.0)
    && (drawdowns != [] ==>
          var worst := -MinOf(drawdowns);
          worst >= 0.0 && IsFall(values, n, worst) && BoundsFalls(values, n, worst))
  }

  lemma {:induction false} FallIsDrawdown(peak: real, to: real)
    requires peak > 0.0
    ensures Fall(peak, to) == -Drawdown(peak, to)
  {
  }

  lemma {:induction false} TracksNext(values: seq<real>, n: nat, at: nat, drawdowns: seq<real>, next: nat)
    requires at < n < |values| && Tracks(values, n, at, drawdowns)
    requires next == if values[n] > values[at] then n else at
    ensures Tracks(values, n + 1, next,
                   if values[next] > 0.0 then drawdowns + [Drawdown(values[next], values[n])] else drawdowns)
  {
    hide Fall, Drawdown, IsFall, BoundsFalls;
    if values[next] > 0.0 {
      var fall := Fall(values[next], values[n]);
      var later := drawdowns + [Drawdown(values[next], values[n])];
      assert later[..|later| - 1] == drawdowns;
      FallRange(values[next], values[n]);
      FallIsDrawdown(values[next], values[n]);
      var worst := -MinOf(later);
      assert worst == if drawdowns == [] || fall > -MinOf(drawdowns) then fall else -MinOf(drawdowns);
      FallFound(values, n, next, -MinOf(later), if drawdowns == [] then None else Some(-MinOf(drawdowns)));
      assert drawdowns == [] ==> forall i :: 0 <= i < n ==> values[i] <= 0.0;
      StillBounded(values, n, drawdowns, worst);
      FallsBounded(values, n, next, worst);
    }
  }

  /** A larger bound still bounds; without a positive value there is nothing to bound. */
  lemma {:induction false} StillBounded(values: seq<real>, n: nat, drawdowns: seq<real>, worst: real)
    requires n <= |values|
    requires if drawdowns == [] then forall i :: 0 <= i < n ==> values[i] <= 0.0
             else BoundsFalls(values, n, -MinOf(drawdowns)) && -MinOf(drawdowns) <= worst
    ensures BoundsFalls(values, n, worst)
  {
    hide Fall, MinOf;
  }

  lemma {:induction false} FallFound(values: seq<real>, n: nat, next: nat, worst: real, before: Option<real>)
    requires next <= n < |values| && values[next] > 0.0
    requires before.Some? ==> IsFall(values, n, before.value)
    requires worst == if before.None? || Fall(values[next], values[n]) > before.value then Fall(values[next], values[n]) else before.value
    ensures IsFall(values, n + 1, worst)
  {
    hide Fall;
    if worst == Fall(values[next], values[n]) {
      assert IsFall(values, n + 1, worst);
    }
  }

  lemma {:induction false} FallsBounded(values: seq<real>, n: nat, next: nat, worst: real)
    requires next <= n < |values| && values[next] > 0.0 && forall i :: 0 <= i <= n ==> values[i] <= values[next]
    requires Fall(values[next], values[n]) <= worst
    requires BoundsFalls(values, n, worst)
    ensures BoundsFalls(values, n + 1, worst)
  {
    forall i, j | 0 <= i <= j < n + 1 && values[i] > 0.0 && values[j] >= 0.0
      ensures Fall(values[i], values[j]) <= worst
    {
      if j == n {
        HigherPeakFallsFurther(values[i], values[next], values[n]);
      }
    }
  }

  predicate Positive(values: seq<real>) {
    forall i :: 0 <= i < |values| ==> values[i] > 0.0
  }

  /** `max_drawdown`: one pass with a running peak. For the positive closes of `closes_from_bars` it finds the largest
      fall over all pairs of an earlier and a later value, and that lies in [0, 1). */
  method MaxDrawdown(closes: seq<real>, window: int) returns (drawdown: Option<real>)
    ensures drawdown.Some? <==>
            |Tail(closes, window)| >= 2 && exists i :: 0 <= i < |Tail(closes, window)| && Tail(closes, window)[i] > 0.0
    ensures drawdown.Some? ==>
              var values := Tail(closes, window);
              drawdown.value >= 0.0 && IsFall(values, |values|, drawdown.value) && BoundsFalls(values, |values|, drawdown.value)
    ensures drawdown.Some? && Positive(closes) ==> drawdown.value < 1.0
  {
    var values := Tail(closes, window);
    if |values| < 2 {
      return None;
    }
    hide Fall, MinOf, BoundsFalls, IsFall, Tracks;
    var drawdowns := Drawdowns(values);
    ghost var at: nat :| at < |values| && Tracks(values, |values|, at, drawdowns);
    Tracked(values, at, drawdowns);
    if drawdowns == [] {
      return None;
    }
    var least := MinOf(drawdowns);
    if Positive(closes) {
      FallsStayBelowOne(values, -least);
    }
    return Some(if least < 0.0 then -least else least);
  }

  /** The loop: the drawdown of each value from the peak so far, where that is positive. */
  method Drawdowns(values: seq<real>) returns (drawdowns: seq<real>)
    requires values != []
    ensures exists at: nat :: at < |values| && Tracks(values, |values|, at, drawdowns)
  {
    hide Tracks, Drawdown;
    var peak := values[0];
    drawdowns := [];
    ghost var at: nat := 0;
    TracksFirst(values);
    for n := 0 to |values|
      invariant at < |values| && peak == values[at]
      invariant if n == 0 then drawdowns == [] && at == 0 else at < n && Tracks(values, n, at, drawdowns)
    {
      ghost var next := if n > 0 && values[n] > values[at] then n else at;
      if n > 0 {
        TracksNext(values, n, at, drawdowns, next);
      }
      at := next;
      peak := if values[n] > peak then values[n] else peak;
      if peak > 0.0 {
        drawdowns := drawdowns + [Drawdown(peak, values[n])];
      }
    }
  }

  lemma {:induction false} Tracked(values: seq<real>, at: nat, drawdowns: seq<real>)
    requires at < |values| && Tracks(values, |values|, at, drawdowns)
    ensures drawdowns != [] <==> exists i :: 0 <= i < |values| && values[i] > 0.0
    ensures drawdowns != [] ==>
              var least := MinOf(drawdowns);
              least <= 0.0 && IsFall(values, |values|, -least) && BoundsFalls(values, |values|, -least)
  {
    hide Fall, MinOf, BoundsFalls, IsFall;
  }

  lemma {:induction false} TracksFirst(values: seq<real>)
    requires values != []
    ensures Tracks(values, 1, 0, [] + if values[0] > 0.0 then [Drawdown(values[0], values[0])] else [])
  {
    if values[0] > 0.0 {
      assert values[0] / values[0] == 1.0;
      assert IsFall(values, 1, 0.0);
    }
  }

  lemma {:induction false} FallsStayBelowOne(values: seq<real>, d: real)
    requires Positive(values) && IsFall(values, |values|, d)
    ensures d < 1.0
  {
    var i, j :| 0 <= i <= j < |values| && values[i] > 0.0 && d == Fall(values[i], values[j]);
    FallRange(values[i], values[j]);
  }

  // ----- percentile rank -----

  predicate Sorted(values: seq<real>) {
    forall i, j :: 0 <= i < j < |values| ==> values[i] <= values[j]
  }

  function Insert(value: real, sorted: seq<real>): seq<real> {
    if sorted == [] || value <= sorted[0] then [value] + sorted else [sorted[0]] + Insert(value, sorted[1..])
  }

  /** `sorted(values)` */
  function Sort(values: seq<real>): seq<real> {
    if values == [] then [] else Insert(values[0], Sort(values[1..]))
  }

  lemma {:induction false} InsertElements(value: real, sorted: seq<real>)
    ensures forall k :: 0 <= k < |Insert(value, sorted)| ==> Insert(value, sorted)[k] == value || Insert(value, sorted)[k] in sorted
  {
    if sorted != [] && value > sorted[0] {
      InsertElements(value, sorted[1..]);
    }
  }

  lemma {:induction false} InsertKeepsOrder(value: real, sorted: seq<real>)
    requires Sorted(sorted)
    ensures Sorted(Insert(value, sorted))
  {
    if sorted != [] && value > sorted[0] {
      InsertKeepsOrder(value, sorted[1..]);
      InsertElements(value, sorted[1..]);
    }
  }

  lemma {:induction false} InsertAdds(value: real, sorted: seq<real>)
    ensures multiset(Insert(value, sorted)) == multiset(sorted) + multiset{value}
  {
    if sorted != [] && value > sorted[0] {
      InsertAdds(value, sorted[1..]);
      assert sorted == [sorted[0]] + sorted[1..];
    }
  }

  lemma {:induction false} SortSorts(values: seq<real>)
    ensures Sorted(Sort(values)) && multiset(Sort(values)) == multiset(values) && |Sort(values)| == |values|
  {
    if values != [] {
      SortSorts(values[1..]);
      InsertKeepsOrder(values[0], Sort(values[1..]));
      InsertAdds(values[0], Sort(values[1..]));
      assert values == [values[0]] + values[1..];
      assert |multiset(Sort(values))| == |Sort(values)|;
    }
  }

  function Usable(values: seq<Option<real>>): seq<real> {
    if values == [] then []
    else (if values[0].Some? then [values[0].value] else []) + Usable(values[1..])
  }

  /** `int(x)` truncates toward zero. */
  function Truncate(x: real): int {
    if x >= 0.0 then x.Floor else -((-x).Floor)
  }

  function ClampIndex(n: nat, share: real): (i: nat)
    requires n > 0
    ensures i < n
  {
    IndexWithin(n, Truncate(Scaled(n, share)))
  }

  function Scaled(n: nat, share: real): real {
    (n - 1) as real * share
  }

  function IndexWithin(n: nat, index: int): (i: nat)
    requires n > 0
    ensures i < n
  {
    if index < 0 then 0 else if index > n - 1 then n - 1 else index
  }

  function Below(values: seq<real>, x: real): nat {
    if values == [] then 0 else (if values[0] < x then 1 else 0) + Below(values[1..], x)
  }

  function Equal(values: seq<real>, x: real): nat {
    if values == [] then 0 else (if values[0] == x then 1 else 0) + Equal(values[1..], x)
  }

  function Min(a: real, b: real): real { if b < a then b else a }

  function Max(a: real, b: real): real { if b > a then b else a }

  function Clamp(x: real): real { Max(0.0, Min(100.0, x)) }

  function Clipped(value: real, sorted: seq<real>, low: real, high: real): real
    requires sorted != []
  {
    Min(Max(value, sorted[ClampIndex(|sorted|, low)]), sorted[ClampIndex(|sorted|, high)])
  }

  /** The number of samples below, ties counting half and at least one. */
  function Rank(sorted: seq<real>, x: real): real {
    Below(sorted, x) as real + MaxInt(1, Equal(sorted, x)) as real / 2.0
  }

  /** The percentile before the final clamp. */
  function RawPercentile(value: real, sorted: seq<real>, higher: bool, low: real, high: real): real
    requires sorted != []
  {
    var result := 100.0 * Rank(sorted, Clipped(value, sorted, low, high)) / |sorted| as real;
    if higher then result else 100.0 - result
  }

  /** `percentile_rank`; non-finite samples do not exist over the reals. */
  function PercentileRank(
      value: Option<real>, values: seq<Option<real>>, higher: bool, low: real, high: real, minSamples: nat)
      : Option<real>
    requires minSamples > 0 || Usable(values) != []
  {
    if value.None? then None
    else
      var usable := Usable(values);
      SortSorts(usable);
      if |usable| < minSamples then None
      else Some(Clamp(RawPercentile(value.value, Sort(usable), higher, low, high)))
  }

  lemma {:induction false} CountsFit(values: seq<real>, x: real)
    ensures Below(values, x) + Equal(values, x) <= |values|
  {
    if values != [] {
      CountsFit(values[1..], x);
    }
  }

  lemma {:induction false} SomeNotBelow(values: seq<real>, x: real, i: nat)
    requires i < |values| && values[i] >= x
    ensures Below(values, x) < |values|
  {
    CountsFit(values[1..], x);
    if i > 0 {
      SomeNotBelow(values[1..], x, i - 1);
    }
  }

  lemma {:induction false} BelowGrows(values: seq<real>, x: real, y: real)
    requires x < y
    ensures Below(values, x) + Equal(values, x) <= Below(values, y)
  {
    if values != [] {
      BelowGrows(values[1..], x, y);
    }
  }

  lemma {:induction false} RankGrows(values: seq<real>, x: real, y: real)
    requires x <= y
    ensures Rank(values, x) <= Rank(values, y)
  {
    if x < y {
      BelowGrows(values, x, y);
    }
  }

  lemma {:induction false} RankBounds(sorted: seq<real>, value: real, low: real, high: real)
    requires sorted != []
    ensures 0.5 <= Rank(sorted, Clipped(value, sorted, low, high)) <= |sorted| as real - 0.5
  {
    var x := Clipped(value, sorted, low, high);
    CountsFit(sorted, x);
    SomeNotBelow(sorted, x, ClampIndex(|sorted|, high));
  }

  /** A percentile exists exactly when there is a value and enough samples; with n usable samples it then lies in
      [50/n, 100 - 50/n], so the final clamp never binds. */
  lemma {:induction false} PercentileBounds(
      value: Option<real>, values: seq<Option<real>>, higher: bool, low: real, high: real, minSamples: nat)
    requires minSamples > 0 || Usable(values) != []
    ensures var n := |Usable(values)| as real;
            var result := PercentileRank(value, values, higher, low, high, minSamples);
            && (result.Some? <==> value.Some? && |Usable(values)| >= minSamples)
            && (result.Some? ==>
                  50.0 / n <= result.value <= 100.0 - 50.0 / n
                  && result.value == RawPercentile(value.value, Sort(Usable(values)), higher, low, high))
  {
    hide Sort, Usable, Rank, Clipped;
    var sorted := Sort(Usable(values));
    SortSorts(Usable(values));
    if value.Some? && |sorted| >= minSamples {
      RankBounds(sorted, value.value, low, high);
      var n := |sorted| as real;
      var r := 100.0 * Rank(sorted, Clipped(value.value, sorted, low, high));
      DivideBounds(r, n, 50.0, 100.0 * n - 50.0);
      assert (100.0 * n - 50.0) / n == 100.0 - 50.0 / n;
      DivideBounds(50.0, n, 0.0, 50.0);
    }
  }

  /** A larger value never ranks lower when higher is better, and never higher when lower is better. */
  lemma {:induction false} PercentileIsMonotone(
    value: real, larger: real, values: seq<Option<real>>, low: real, high: real, minSamples: nat)
    requires minSamples <= |Usable(values)| && Usable(values) != [] && value <= larger
    ensures PercentileRank(Some(value), values, true, low, high, minSamples).value
            <= PercentileRank(Some(larger), values, true, low, high, minSamples).value
    ensures PercentileRank(Some(larger), values, false, low, high, minSamples).value
            <= PercentileRank(Some(value), values, false, low, high, minSamples).value
  {
    hide Sort, Usable, Rank;
    var sorted := Sort(Usable(values));
    SortSorts(Usable(values));
    var n := |sorted| as real;
    var x, y := Clipped(value, sorted, low, high), Clipped(larger, sorted, low, high);
    assert x <= y;
    RankGrows(sorted, x, y);
    DivideBounds(100.0 * Rank(sorted, x), n, 100.0 * Rank(sorted, x), 100.0 * Rank(sorted, y));
  }

  lemma {:induction false} InsertCounts(value: real, sorted: seq<real>, x: real)
    ensures Below(Insert(value, sorted), x) == Below(sorted, x) + (if value < x then 1 else 0)
    ensures Equal(Insert(value, sorted), x) == Equal(sorted, x) + (if value == x then 1 else 0)
  {
    if sorted != [] && value > sorted[0] {
      InsertCounts(value, sorted[1..], x);
      assert Insert(value, sorted)[1..] == Insert(value, sorted[1..]);
    } else {
      assert Insert(value, sorted)[1..] == sorted;
    }
  }

  lemma {:induction false} SortCounts(values: seq<real>, x: real)
    ensures Below(Sort(values), x) == Below(values, x) && Equal(Sort(values), x) == Equal(values, x)
  {
    if values != [] {
      SortCounts(values[1..], x);
      InsertCounts(values[0], Sort(values[1..]), x);
    }
  }

  /** The winsor samples, as they stand in the sorted list. */
  function Winsor(values: seq<Option<real>>, share: real): real
    requires Usable(values) != []
  {
    SortSorts(Usable(values));
    Sort(Usable(values))[ClampIndex(|Usable(values)|, share)]
  }

  /** Winsorising moves a value to the nearest point between the two winsor samples, and the percentile is that point's
      mid-rank among the samples, in whatever order they come. With shares the wrong way round the upper sample wins. */
  lemma {:induction false} PercentileIsMidRank(
      value: real, values: seq<Option<real>>, higher: bool, low: real, high: real, minSamples: nat, x: real)
    requires minSamples <= |Usable(values)| && Usable(values) != []
    requires var least, most := Winsor(values, low), Winsor(values, high);
             x == if most < least then most else if value < least then least else if value > most then most else value
    ensures var share := 100.0 * Rank(Usable(values), x) / |Usable(values)| as real;
            PercentileRank(Some(value), values, higher, low, high, minSamples) == Some(if higher then share else 100.0 - share)
    ensures low <= high ==> Winsor(values, low) <= Winsor(values, high)
  {
    hide Sort, Usable, Below, Equal, ClampIndex;
    var usable := Usable(values);
    var sorted := Sort(usable);
    SortSorts(usable);
    SortCounts(usable, x);
    if low <= high {
      WinsorOrder(|sorted|, low, high);
    }
    assert Clipped(value, sorted, low, high) == x;
    PercentileBounds(Some(value), values, higher, low, high, minSamples);
  }

  lemma {:induction false} WinsorOrder(n: nat, low: real, high: real)
    requires n > 0 && low <= high
    ensures ClampIndex(n, low) <= ClampIndex(n, high)
  {
    ScaledKeepsOrder(n, low, high);
    TruncateKeepsOrder(Scaled(n, low), Scaled(n, high));
    hide Scaled, Truncate;
  }

  lemma {:induction false} ScaledKeepsOrder(n: nat, low: real, high: real)
    requires n > 0 && low <= high
    ensures Scaled(n, low) <= Scaled(n, high)
  {
    ScaleKeepsOrder((n - 1) as real, low, high);
  }

  lemma {:induction false} TruncateKeepsOrder(x: real, y: real)
    requires x <= y
    ensures Truncate(x) <= Truncate(y)
  {
    assert x.Floor <= y.Floor && (-y).Floor <= (-x).Floor;
  }

  lemma {:induction false} ScaleKeepsOrder(p: real, x: real, y: real)
    requires x <= y && p >= 0.0
    ensures p * x <= p * y
  {
    if p > 0.0 && x < y {
      TimesKeepsOrder(x, y, p);
    }
  }

  // ----- the percentile, read off the samples -----

  function Given(values: seq<Option<real>>): set<nat> {
    set i: nat | i < |values| && values[i].Some?
  }

  function Smaller(values: seq<Option<real>>, x: real): set<nat> {
    set i: nat | i < |values| && values[i].Some? && values[i].value < x
  }

  function Same(values: seq<Option<real>>, x: real): set<nat> {
    set i: nat | i < |values| && values[i].Some? && values[i].value == x
  }

  /** The k-th smallest sample, counted from zero. */
  predicate IsOrdered(values: seq<Option<real>>, k: nat, x: real) {
    |Smaller(values, x)| <= k < |Smaller(values, x)| + |Same(values, x)|
  }

  /** The place of a share among n samples. */
  function Place(n: nat, share: real): (k: int)
    requires n > 0
  {
    if share <= 0.0 then 0 else if share >= 1.0 then n - 1 else ((n - 1) as real * share).Floor
  }

  lemma {:induction false} CountsAppend(values: seq<real>, last: real, x: real)
    ensures Below(values + [last], x) == Below(values, x) + (if last < x then 1 else 0)
    ensures Equal(values + [last], x) == Equal(values, x) + (if last == x then 1 else 0)
  {
    if values == [] {
      assert [] + [last] == [last];
    } else {
      assert (values + [last])[1..] == values[1..] + [last];
      CountsAppend(values[1..], last, x);
    }
  }

  lemma {:induction false} UsableAppend(values: seq<Option<real>>, last: Option<real>)
    ensures Usable(values + [last]) == Usable(values) + if last.Some? then [last.value] else []
  {
    var all := values + [last];
    if values != [] {
      assert all[0] == values[0] && all[1..] == values[1..] + [last];
      UsableAppend(values[1..], last);
    } else {
      assert all == [last] && all[1..] == [];
    }
  }

  lemma {:induction false} SetGrows(before: set<nat>, after: set<nat>, n: nat, grows: bool)
    requires n !in before && forall i: nat :: i in after <==> i in before || (grows && i == n)
    ensures |after| == |before| + if grows then 1 else 0
  {
    if grows {
      assert after == before + {n};
    } else {
      assert after == before;
    }
  }

  lemma {:induction false} SetsGrow(front: seq<Option<real>>, last: Option<real>, x: real)
    ensures |Given(front + [last])| == |Given(front)| + if last.Some? then 1 else 0
    ensures |Smaller(front + [last], x)| == |Smaller(front, x)| + if last.Some? && last.value < x then 1 else 0
    ensures |Same(front + [last], x)| == |Same(front, x)| + if last == Some(x) then 1 else 0
  {
    var n, all := |front|, front + [last];
    assert all[n] == last && forall i :: 0 <= i < n ==> all[i] == front[i];
    SetGrows(Given(front), Given(all), n, last.Some?);
    SetGrows(Smaller(front, x), Smaller(all, x), n, last.Some? && last.value < x);
    SetGrows(Same(front, x), Same(all, x), n, last == Some(x));
  }

  lemma {:induction false} SamplesCounted(values: seq<Option<real>>, x: real)
    ensures |Given(values)| == |Usable(values)|
    ensures |Smaller(values, x)| == Below(Usable(values), x) && |Same(values, x)| == Equal(Usable(values), x)
  {
    hide *;
    if values == [] {
      NothingUsable(x);
    } else {
      var front, last := values[..|values| - 1], values[|values| - 1];
      SamplesCounted(front, x);
      assert values == front + [last];
      UsableAppend(front, last);
      SetsGrow(front, last, x);
      if last.Some? {
        CountsAppend(Usable(front), last.value, x);
      } else {
        assert Usable(front) + [] == Usable(front);
      }
    }
  }

  lemma {:induction false} NothingUsable(x: real)
    ensures Usable([]) == [] && Below(Usable([]), x) == 0 && Equal(Usable([]), x) == 0
    ensures Given([]) == Smaller([], x) == Same([], x) == {}
  {
  }

  lemma {:induction false} NoneSmall(values: seq<real>, x: real)
    requires forall i :: 0 <= i < |values| ==> values[i] >= x
    ensures Below(values, x) == 0
    ensures (forall i :: 0 <= i < |values| ==> values[i] > x) ==> Equal(values, x) == 0
  {
    if values != [] {
      assert forall i :: 0 <= i < |values| - 1 ==> values[1..][i] == values[i + 1];
      NoneSmall(values[1..], x);
    }
  }

  /** In a sorted list, what stands at a place is compared with x by counting. */
  lemma {:induction false} PlaceIsCounted(sorted: seq<real>, k: nat, x: real)
    requires Sorted(sorted) && k < |sorted|
    ensures sorted[k] < x <==> k < Below(sorted, x)
    ensures sorted[k] <= x <==> k < Below(sorted, x) + Equal(sorted, x)
  {
    if k > 0 {
      PlaceIsCounted(sorted[1..], k - 1, x);
      if sorted[0] >= x {
        NoneSmall(sorted[1..], x);
      }
      if sorted[0] > x {
        NoneSmall(sorted, x);
      }
    } else if sorted[0] >= x {
      NoneSmall(sorted, x);
    }
  }

  lemma {:induction false} OrderedIsSorted(values: seq<Option<real>>, k: nat, x: real)
    requires k < |Usable(values)| && IsOrdered(values, k, x)
    ensures k < |Sort(Usable(values))| && Sort(Usable(values))[k] == x
  {
    hide Sort, Usable, Below, Equal, Smaller, Same;
    SortSorts(Usable(values));
    SamplesCounted(values, x);
    SortCounts(Usable(values), x);
    PlaceIsCounted(Sort(Usable(values)), k, x);
  }

  lemma {:induction false} PlaceIsIndex(n: nat, share: real)
    requires n > 0
    ensures ClampIndex(n, share) == Place(n, share)
  {
    hide IndexWithin, Truncate, Scaled;
    ScaledAtEnds(n, share);
    IndexAtEnds(n, Truncate(Scaled(n, share)));
  }

  lemma {:induction false} ScaledAtEnds(n: nat, share: real)
    requires n > 0
    ensures share <= 0.0 ==> Truncate(Scaled(n, share)) <= 0
    ensures share >= 1.0 ==> Truncate(Scaled(n, share)) >= n - 1
    ensures 0.0 < share < 1.0 ==> 0 <= Truncate(Scaled(n, share)) == ((n - 1) as real * share).Floor <= n - 1
  {
    hide Truncate, Scaled;
    var scaled := Scaled(n, share);
    ScaledEnds(n, share);
    TruncateAt(0);
    TruncateAt(n - 1);
    if share <= 0.0 {
      ScaledKeepsOrder(n, share, 0.0);
      TruncateKeepsOrder(scaled, 0.0);
    } else if share >= 1.0 {
      ScaledKeepsOrder(n, 1.0, share);
      TruncateKeepsOrder((n - 1) as real, scaled);
    } else {
      ScaledKeepsOrder(n, 0.0, share);
      ScaledKeepsOrder(n, share, 1.0);
      TruncateKeepsOrder(0.0, scaled);
      TruncateKeepsOrder(scaled, (n - 1) as real);
      TruncateDown(scaled);
    }
  }

  lemma {:induction false} ScaledEnds(n: nat, share: real)
    requires n > 0
    ensures Scaled(n, 0.0) == 0.0 && Scaled(n, 1.0) == (n - 1) as real && Scaled(n, share) == (n - 1) as real * share
  {
  }

  lemma {:induction false} TruncateAt(k: int)
    ensures Truncate(k as real) == k
  {
  }

  lemma {:induction false} TruncateDown(x: real)
    requires x >= 0.0
    ensures Truncate(x) == x.Floor
  {
  }

  lemma {:induction false} IndexAtEnds(n: nat, index: int)
    requires n > 0
    ensures IndexWithin(n, index) == if index <= 0 then 0 else if index >= n - 1 then n - 1 else index
  {
  }

  /** `percentile_rank`, read off the samples in the order they come: with too few there is none. Else the value is moved to the
      nearest point between the samples at the two winsor shares, the upper one winning; it counts the samples below it once, and
      those equal to it, or itself when there is none, by half. */
  lemma {:induction false} PercentileIsExact(
      value: real, values: seq<Option<real>>, higher: bool, low: real, high: real, minSamples: nat, least: real, most: real, x: real)
    requires Given(values) != {}
    requires 0 <= Place(|Given(values)|, low) && IsOrdered(values, Place(|Given(values)|, low), least)
    requires 0 <= Place(|Given(values)|, high) && IsOrdered(values, Place(|Given(values)|, high), most)
    requires x == if most < least then most else if value < least then least else if value > most then most else value
    ensures Usable(values) != []
    ensures var ties := if Same(values, x) == {} then 1 else |Same(values, x)|;
            var share := (2 * |Smaller(values, x)| + ties) as real * 50.0 / |Given(values)| as real;
            PercentileRank(Some(value), values, higher, low, high, minSamples)
            == if |Given(values)| < minSamples then None else Some(if higher then share else 100.0 - share)
  {
    hide Sort, Usable, Below, Equal, ClampIndex, Smaller, Same, Given, Place;
    SamplesCounted(values, x);
    SamplesCounted(values, least);
    var n := |Given(values)|;
    PlaceIsIndex(n, low);
    PlaceIsIndex(n, high);
    OrderedIsSorted(values, Place(n, low), least);
    OrderedIsSorted(values, Place(n, high), most);
    if n >= minSamples {
      assert Winsor(values, low) == least && Winsor(values, high) == most;
      PercentileIsMidRank(value, values, higher, low, high, minSamples, x);
      RankSpelled(|Smaller(values, x)|, |Same(values, x)|, n);
    }
  }

  lemma {:induction false} RankSpelled(below: nat, equal: nat, n: nat)
    requires n > 0
    ensures 100.0 * (below as real + MaxInt(1, equal) as real / 2.0) / n as real
            == (2 * below + if equal == 0 then 1 else equal) as real * 50.0 / n as real
  {
    assert MaxInt(1, equal) == if equal == 0 then 1 else equal;
  }

  // ----- weighted combinations -----

  datatype Weighted = Weighted(value: real, weight: real)

  function TotalWeight(items: seq<Weighted>): real {
    if items == [] then 0.0 else TotalWeight(items[..|items| - 1]) + items[|items| - 1].weight
  }

  function WeightedSum(items: seq<Weighted>): real {
    if items == [] then 0.0 else WeightedSum(items[..|items| - 1]) + items[|items| - 1].value * items[|items| - 1].weight
  }

  predicate Within(items: seq<Weighted>, lower: real, upper: real) {
    forall i :: 0 <= i < |items| ==> lower <= items[i].value <= upper && items[i].weight >= 0.0
  }

  lemma {:induction false} AddWithin(total: real, sum: real, value: real, weight: real, lower: real, upper: real)
    requires lower * total <= sum <= upper * total && lower <= value <= upper && weight >= 0.0
    ensures lower * (total + weight) <= sum + value * weight <= upper * (total + weight)
  {
    assert lower * weight <= value * weight <= upper * weight;
  }

  lemma {:induction false} LastItem(items: seq<Weighted>)
    requires items != []
    ensures var front, last := items[..|items| - 1], items[|items| - 1];
            TotalWeight(items) == TotalWeight(front) + last.weight
            && WeightedSum(items) == WeightedSum(front) + last.value * last.weight
  {
  }

  lemma {:induction false} SumWithin(items: seq<Weighted>, lower: real, upper: real)
    requires Within(items, lower, upper)
    ensures lower * TotalWeight(items) <= WeightedSum(items) <= upper * TotalWeight(items) && TotalWeight(items) >= 0.0
  {
    if items == [] {
      assert TotalWeight(items) == 0.0 && WeightedSum(items) == 0.0;
    } else {
      var front, last := items[..|items| - 1], items[|items| - 1];
      assert Within(front, lower, upper) && lower <= last.value <= upper && last.weight >= 0.0;
      LastItem(items);
      hide *;
      SumWithin(front, lower, upper);
      AddWithin(TotalWeight(front), WeightedSum(front), last.value, last.weight, lower, upper);
    }
  }

  /** A weighted mean lies between any bounds of its values. */
  lemma {:induction false} MeanWithin(items: seq<Weighted>, lower: real, upper: real)
    requires Within(items, lower, upper) && TotalWeight(items) > 0.0
    ensures lower <= WeightedSum(items) / TotalWeight(items) <= upper
  {
    SumWithin(items, lower, upper);
    BetweenMultiples(WeightedSum(items), TotalWeight(items), lower, upper);
  }

  lemma {:induction false} BetweenMultiples(sum: real, total: real, lower: real, upper: real)
    requires total > 0.0 && lower * total <= sum <= upper * total
    ensures lower <= sum / total <= upper
  {
    assert (sum / total) * total == sum;
    CancelFactor(lower, sum / total, total);
    CancelFactor(sum / total, upper, total);
  }

  datatype Component = Component(score: Option<real>, available: bool, confidence: real, weight: real)

  datatype Combined = Combined(score: Option<real>, availableWeight: real, confidence: real)

  predicate Counts(c: Component) {
    c.available && c.score.Some? && c.weight > 0.0
  }

  function Scores(components: seq<Component>): seq<Weighted> {
    if components == [] then []
    else
      var last := components[|components| - 1];
      Scores(components[..|components| - 1]) + if Counts(last) then [Weighted(last.score.value, last.weight)] else []
  }

  function Confidences(components: seq<Component>): seq<Weighted> {
    if components == [] then []
    else
      var last := components[|components| - 1];
      Confidences(components[..|components| - 1]) + if Counts(last) then [Weighted(last.confidence, last.weight)] else []
  }

  /** `combine_components`, before rounding */
  function Combine(components: seq<Component>): Combined {
    var scores := Scores(components);
    var available := TotalWeight(scores);
    if scores == [] || available <= 0.0 then Combined(None, 0.0, 0.0)
    else
      Combined(Some(Clamp(WeightedSum(scores) / available)), available,
               Clamp(WeightedSum(Confidences(components)) / available * available))
  }

  lemma {:induction false} ScoresWithin(components: seq<Component>, lower: real, upper: real)
    requires forall i :: 0 <= i < |components| && Counts(components[i]) ==> lower <= components[i].score.value <= upper
    ensures Within(Scores(components), lower, upper)
    ensures Scores(components) != [] ==> TotalWeight(Scores(components)) > 0.0
    ensures Scores(components) == [] <==> forall i :: 0 <= i < |components| ==> !Counts(components[i])
  {
    if components != [] {
      var front := components[..|components| - 1];
      assert forall i :: 0 <= i < |front| ==> front[i] == components[i];
      ScoresWithin(front, lower, upper);
      var last := components[|components| - 1];
      if Counts(last) {
        var all := Scores(components);
        assert all == Scores(front) + [Weighted(last.score.value, last.weight)];
        assert all[..|all| - 1] == Scores(front);
        SumWithin(Scores(front), lower, upper);
      } else {
        assert Scores(components) == Scores(front);
      }
    }
  }

  lemma {:induction false} SameWeights(components: seq<Component>)
    ensures TotalWeight(Confidences(components)) == TotalWeight(Scores(components))
    ensures Confidences(components) == [] <==> Scores(components) == []
  {
    if components != [] {
      var front, last := components[..|components| - 1], components[|components| - 1];
      SameWeights(front);
      if Counts(last) {
        var scores, confidences := Scores(components), Confidences(components);
        assert scores[..|scores| - 1] == Scores(front) && confidences[..|confidences| - 1] == Confidences(front);
      } else {
        assert Scores(components) == Scores(front) && Confidences(components) == Confidences(front);
      }
    }
  }

  lemma {:induction false} ConfidencesWithin(components: seq<Component>)
    requires forall i :: 0 <= i < |components| ==> 0.0 <= components[i].confidence <= 100.0
    ensures Within(Confidences(components), 0.0, 100.0)
  {
    if components != [] {
      ConfidencesWithin(components[..|components| - 1]);
    }
  }

  /** The combined confidence is the sum of the weighted confidences, not their mean: missing components lower it. While the
      weights that count sum to at most one, the clamp never binds. */
  lemma {:induction false} CombinedConfidenceIsSum(components: seq<Component>)
    requires forall i :: 0 <= i < |components| ==> 0.0 <= components[i].confidence <= 100.0
    requires TotalWeight(Scores(components)) <= 1.0
    ensures Combine(components).confidence == WeightedSum(Confidences(components))
    ensures Combine(components).availableWeight == TotalWeight(Scores(components))
  {
    hide Scores, Confidences, Counts, WeightedSum, TotalWeight;
    SameWeights(components);
    ConfidencesWithin(components);
    SumWithin(Confidences(components), 0.0, 100.0);
    NothingCounts(components);
    var sum, total := WeightedSum(Confidences(components)), TotalWeight(Scores(components));
    if total > 0.0 {
      assert sum / total * total == sum;
    }
  }

  lemma {:induction false} NothingCounts(components: seq<Component>)
    ensures TotalWeight(Scores(components)) > 0.0 || (Scores(components) == [] && Confidences(components) == [])
    ensures Scores(components) == [] ==> TotalWeight(Scores(components)) == 0.0 && WeightedSum(Confidences(components)) == 0.0
  {
    SameWeights(components);
    SomeWeight(components);
  }

  lemma {:induction false} SomeWeight(components: seq<Component>)
    ensures Scores(components) != [] ==> TotalWeight(Scores(components)) > 0.0
    ensures TotalWeight(Scores(components)) >= 0.0
  {
    if components != [] {
      var front, last := components[..|components| - 1], components[|components| - 1];
      SomeWeight(front);
      if Counts(last) {
        var scores := Scores(components);
        assert scores[..|scores| - 1] == Scores(front);
      } else {
        assert Scores(components) == Scores(front);
      }
    }
  }

  /** A combined score exists exactly when some component counts. It stays within any bounds of the scores that count, so
      for scores in [0, 100] the clamp never binds. */
  lemma {:induction false} CombinedScoreIsMean(components: seq<Component>, lower: real, upper: real)
    requires 0.0 <= lower <= upper <= 100.0
    requires forall i :: 0 <= i < |components| && Counts(components[i]) ==> lower <= components[i].score.value <= upper
    ensures Combine(components).score.Some? <==> exists i :: 0 <= i < |components| && Counts(components[i])
    ensures Combine(components).score.Some? ==>
              lower <= Combine(components).score.value <= upper
              && Combine(components).score.value == WeightedSum(Scores(components)) / TotalWeight(Scores(components))
  {
    hide Scores, Confidences, Counts, WeightedSum, TotalWeight;
    ScoresWithin(components, lower, upper);
    if Scores(components) != [] {
      MeanWithin(Scores(components), lower, upper);
    }
  }

  // ----- the combination, read off the components -----

  /** An available component with a score and a positive weight. */
  predicate IsUsable(c: Component) {
    c.available && c.score.Some? && c.weight > 0.0
  }

  function UsableWeight(components: seq<Component>): real {
    if components == [] then 0.0
    else (if IsUsable(components[0]) then components[0].weight else 0.0) + UsableWeight(components[1..])
  }

  function UsableScore(components: seq<Component>): real {
    if components == [] then 0.0
    else
      (if IsUsable(components[0]) then components[0].score.value * components[0].weight else 0.0) + UsableScore(components[1..])
  }

  function UsableConfidence(components: seq<Component>): real {
    if components == [] then 0.0
    else
      (if IsUsable(components[0]) then components[0].confidence * components[0].weight else 0.0) + UsableConfidence(components[1..])
  }

  lemma {:induction false} SumsAppend(components: seq<Component>, last: Component)
    ensures UsableWeight(components + [last]) == UsableWeight(components) + if IsUsable(last) then last.weight else 0.0
    ensures UsableScore(components + [last])
            == UsableScore(components) + if IsUsable(last) then last.score.value * last.weight else 0.0
    ensures UsableConfidence(components + [last])
            == UsableConfidence(components) + if IsUsable(last) then last.confidence * last.weight else 0.0
  {
    if components == [] {
      assert [] + [last] == [last];
    } else {
      assert (components + [last])[1..] == components[1..] + [last];
      SumsAppend(components[1..], last);
    }
  }

  lemma {:induction false} SumsAreUsable(components: seq<Component>)
    ensures TotalWeight(Scores(components)) == TotalWeight(Confidences(components)) == UsableWeight(components)
    ensures WeightedSum(Scores(components)) == UsableScore(components)
    ensures WeightedSum(Confidences(components)) == UsableConfidence(components)
  {
    hide UsableWeight, UsableScore, UsableConfidence, WeightedSum, TotalWeight;
    if components == [] {
      NoSums();
    } else {
      var front, last := components[..|components| - 1], components[|components| - 1];
      SumsAreUsable(front);
      assert components == front + [last];
      SumsAppend(front, last);
      if Counts(last) {
        var scores, confidences := Scores(components), Confidences(components);
        assert scores[..|scores| - 1] == Scores(front) && confidences[..|confidences| - 1] == Confidences(front);
        LastItem(scores);
        LastItem(confidences);
      } else {
        assert Scores(components) == Scores(front) && Confidences(components) == Confidences(front);
      }
    }
  }

  lemma {:induction false} NoSums()
    ensures UsableWeight([]) == UsableScore([]) == UsableConfidence([]) == 0.0
    ensures Scores([]) == Confidences([]) == [] && WeightedSum([]) == TotalWeight([]) == 0.0
  {
  }

  /** The combination over scores and confidences in [0, 100]: no score exactly when no component is usable; else the score times
      the usable weight is the weighted sum of the scores; and the confidence is the weighted sum of the confidences, up to 100. */
  lemma {:induction false} CombinationIsExact(components: seq<Component>)
    requires forall i :: 0 <= i < |components| ==> 0.0 <= components[i].confidence <= 100.0
    requires forall i :: 0 <= i < |components| && IsUsable(components[i]) ==> 0.0 <= components[i].score.value <= 100.0
    ensures var combined := Combine(components);
            && (combined.score.Some? <==> exists i :: 0 <= i < |components| && IsUsable(components[i]))
            && (combined.score.Some? ==> combined.score.value * UsableWeight(components) == UsableScore(components))
            && combined.availableWeight == UsableWeight(components)
            && combined.confidence == if UsableConfidence(components) > 100.0 then 100.0 else UsableConfidence(components)
  {
    hide Scores, Confidences, WeightedSum, TotalWeight, UsableWeight, UsableScore, UsableConfidence;
    CombinedScoreIsMean(components, 0.0, 100.0);
    SumsAreUsable(components);
    SameWeights(components);
    ConfidencesWithin(components);
    SumWithin(Confidences(components), 0.0, 100.0);
    NothingCounts(components);
    var sum, total := WeightedSum(Confidences(components)), TotalWeight(Scores(components));
    if total > 0.0 {
      assert sum / total * total == sum;
      assert WeightedSum(Scores(components)) / total * total == WeightedSum(Scores(components));
    }
  }
}
