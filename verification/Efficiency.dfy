/** Min-max normalised efficiency of a cohort: `normalize_efficiency` of scoring/calculator.py. */
module Efficiency {
  import opened Wrappers
  import opened Scoring

  datatype Metric = Duration | Tokens | ToolCalls

  const METRICS: seq<Metric> := [Duration, Tokens, ToolCalls]

  datatype Record = Record(key: string, metrics: map<Metric, real>)

  /** What the cohort measured of one metric. */
  function Values(cohort: seq<Record>, m: Metric): seq<real> {
    if cohort == [] then []
    else if m in cohort[0].metrics then [cohort[0].metrics[m]] + Values(cohort[1..], m)
    else Values(cohort[1..], m)
  }

  function Least(s: seq<real>): (low: real)
    requires s != []
    ensures low in s && forall x :: x in s ==> low <= x
  {
    if |s| == 1 then s[0]
    else
      var rest := Least(s[1..]);
      assert forall x :: x in s ==> x == s[0] || x in s[1..];
      if s[0] <= rest then s[0] else rest
  }

  function Greatest(s: seq<real>): (high: real)
    requires s != []
    ensures high in s && forall x :: x in s ==> x <= high
  {
    if |s| == 1 then s[0]
    else
      var rest := Greatest(s[1..]);
      assert forall x :: x in s ==> x == s[0] || x in s[1..];
      if s[0] >= rest then s[0] else rest
  }

  function Position(value: real, low: real, high: real): real
    requires low < high
  {
    (value - low) / (high - low)
  }

  function Grade(values: seq<real>, value: real): real
    requires values != []
  {
    var low, high := Least(values), Greatest(values);
    Clip(if high == low then 1.0 else (assert low < high; 1.0 - Position(value, low, high)))
  }

  lemma {:induction false} ValuesHold(cohort: seq<Record>, m: Metric, r: Record)
    requires r in cohort && m in r.metrics
    ensures r.metrics[m] in Values(cohort, m)
  {
    if r != cohort[0] {
      ValuesHold(cohort[1..], m, r);
    }
  }

  /** The grades of one record in the metrics it measured, in their order. */
  function Grades(cohort: seq<Record>, r: Record, metrics: seq<Metric>): seq<real>
    requires r in cohort
  {
    if metrics == [] then []
    else
      var others, m := metrics[..|metrics| - 1], metrics[|metrics| - 1];
      if m in r.metrics then
        ValuesHold(cohort, m, r);
        Grades(cohort, r, others) + [Grade(Values(cohort, m), r.metrics[m])]
      else Grades(cohort, r, others)
  }

  function Total(s: seq<real>): real {
    if s == [] then 0.0 else Total(s[..|s| - 1]) + s[|s| - 1]
  }

  function Mean(s: seq<real>): real {
    if s == [] then 0.0 else Total(s) / |s| as real
  }

  function Efficiency(cohort: seq<Record>, r: Record): real
    requires r in cohort
  {
    Clip(Mean(Grades(cohort, r, METRICS)))
  }

  // ---------------------------------------------------------------- the computation

  ghost predicate Measured(r: Record) {
    r.metrics != map[] && forall m :: m in r.metrics ==> r.metrics[m] >= 0.0
  }

  ghost predicate Keyed(cohort: seq<Record>) {
    && (forall i :: 0 <= i < |cohort| ==> cohort[i].key != "")
    && forall i, j :: 0 <= i < j < |cohort| ==> cohort[i].key != cohort[j].key
  }

  ghost predicate AllMeasured(cohort: seq<Record>) {
    forall i :: 0 <= i < |cohort| ==> Measured(cohort[i])
  }

  /** The checks, record by record. */
  method CheckCohort(cohort: seq<Record>) returns (fault: Option<ScoreError>)
    ensures fault == None <==> Keyed(cohort) && AllMeasured(cohort)
    ensures fault.Some? ==> fault.value in {BadKey, BadMetrics}
    ensures fault == Some(BadKey) ==> !Keyed(cohort)
    ensures fault == Some(BadMetrics) ==> !AllMeasured(cohort)
  {
    var keys: seq<string> := [];
    for i := 0 to |cohort|
      invariant |keys| == i && forall k :: 0 <= k < i ==> keys[k] == cohort[k].key
      invariant Keyed(cohort[..i]) && AllMeasured(cohort[..i])
    {
      var r := cohort[i];
      if r.key == "" || r.key in keys { return Some(BadKey); }
      if r.metrics == map[] || exists m :: m in r.metrics && r.metrics[m] < 0.0 {
        assert !Measured(cohort[i]);
        return Some(BadMetrics);
      }
      keys := keys + [r.key];
      assert forall k :: 0 <= k < i ==> cohort[..i + 1][k] == cohort[..i][k];
    }
    assert cohort[..|cohort|] == cohort;
    fault := None;
  }

  ghost predicate GradedSoFar(cohort: seq<Record>, metrics: seq<Metric>, scores: map<string, seq<real>>) {
    && (forall key :: key in scores ==> exists i :: 0 <= i < |cohort| && cohort[i].key == key)
    && forall i :: 0 <= i < |cohort| ==> cohort[i].key in scores && scores[cohort[i].key] == Grades(cohort, cohort[i], metrics)
  }

  method NormalizeEfficiency(cohort: seq<Record>) returns (r: Result<map<string, real>, ScoreError>)
    ensures r.Ok? <==> Keyed(cohort) && AllMeasured(cohort)
    ensures r == Err(BadKey) ==> !Keyed(cohort)
    ensures r == Err(BadMetrics) ==> !AllMeasured(cohort)
    ensures r.Ok? ==> forall key :: key in r.value ==> exists i :: 0 <= i < |cohort| && cohort[i].key == key
    ensures r.Ok? ==> forall i :: 0 <= i < |cohort| ==>
              cohort[i].key in r.value && r.value[cohort[i].key] == Efficiency(cohort, cohort[i])
  {
    var fault := CheckCohort(cohort);
    if fault.Some? { return Err(fault.value); }
    var scores := GradeAll(cohort, METRICS);
    r := Ok(map key | key in scores :: Clip(Mean(scores[key])));
  }

  function NoGrades(cohort: seq<Record>): (scores: map<string, seq<real>>)
    ensures GradedSoFar(cohort, [], scores)
  {
    map i | 0 <= i < |cohort| :: cohort[i].key := []
  }

  method GradeAll(cohort: seq<Record>, metrics: seq<Metric>) returns (scores: map<string, seq<real>>)
    requires Keyed(cohort)
    ensures GradedSoFar(cohort, metrics, scores)
  {
    assert metrics[..0] == [];
    scores := NoGrades(cohort);
    for n := 0 to |metrics|
      invariant GradedSoFar(cohort, metrics[..n], scores)
    {
      ghost var next := metrics[..n] + [metrics[n]];
      assert metrics[..n + 1] == next;
      scores := GradeMetric(cohort, metrics[..n], metrics[n], scores);
    }
    assert metrics[..|metrics|] == metrics;
    assert GradedSoFar(cohort, metrics, scores);
  }

  lemma NextGrade(cohort: seq<Record>, r: Record, done: seq<Metric>, m: Metric)
    requires r in cohort
    ensures m in r.metrics ==>
              && Values(cohort, m) != []
              && Grades(cohort, r, done + [m]) == Grades(cohort, r, done) + [Grade(Values(cohort, m), r.metrics[m])]
    ensures m !in r.metrics ==> Grades(cohort, r, done + [m]) == Grades(cohort, r, done)
  {
    assert (done + [m])[..|done|] == done;
    if m in r.metrics {
      ValuesHold(cohort, m, r);
    }
  }

  /** One round of the outer loop: every record that measured the metric gets its grade. */
  method GradeMetric(cohort: seq<Record>, done: seq<Metric>, m: Metric, before: map<string, seq<real>>)
    returns (scores: map<string, seq<real>>)
    requires Keyed(cohort) && GradedSoFar(cohort, done, before)
    ensures GradedSoFar(cohort, done + [m], scores)
  {
    var present := Values(cohort, m);
    scores := before;
    NoneGraded(cohort, done, m, before);
    for i := 0 to |cohort|
      invariant scores.Keys == before.Keys && HalfGraded(cohort, done, m, i, scores)
    {
      var r := cohort[i];
      NextGrade(cohort, r, done, m);
      ghost var was := scores;
      if m in r.metrics {
        scores := scores[r.key := scores[r.key] + [Grade(present, r.metrics[m])]];
      }
      OneMoreGraded(cohort, done, m, i, was, scores);
    }
    EveryGraded(cohort, done, m, before, scores);
  }

  lemma NoneGraded(cohort: seq<Record>, done: seq<Metric>, m: Metric, before: map<string, seq<real>>)
    requires GradedSoFar(cohort, done, before)
    ensures HalfGraded(cohort, done, m, 0, before)
  {
  }

  lemma EveryGraded(cohort: seq<Record>, done: seq<Metric>, m: Metric, before: map<string, seq<real>>,
                    scores: map<string, seq<real>>)
    requires GradedSoFar(cohort, done, before)
    requires scores.Keys == before.Keys && HalfGraded(cohort, done, m, |cohort|, scores)
    ensures GradedSoFar(cohort, done + [m], scores)
  {
    assert forall key :: key in scores ==> key in before;
  }

  ghost predicate HalfGraded(cohort: seq<Record>, done: seq<Metric>, m: Metric, i: nat, scores: map<string, seq<real>>) {
    forall k :: 0 <= k < |cohort| ==>
      cohort[k].key in scores && scores[cohort[k].key] == Grades(cohort, cohort[k], if k < i then done + [m] else done)
  }

  lemma OneMoreGraded(cohort: seq<Record>, done: seq<Metric>, m: Metric, i: nat,
                      was: map<string, seq<real>>, scores: map<string, seq<real>>)
    requires Keyed(cohort) && i < |cohort| && HalfGraded(cohort, done, m, i, was)
    requires cohort[i].key in scores && scores[cohort[i].key] == Grades(cohort, cohort[i], done + [m])
    requires forall key :: key in was && key != cohort[i].key ==> key in scores && scores[key] == was[key]
    ensures HalfGraded(cohort, done, m, i + 1, scores)
  {
    forall k | 0 <= k < |cohort|
      ensures cohort[k].key in scores
      ensures scores[cohort[k].key] == Grades(cohort, cohort[k], if k < i + 1 then done + [m] else done)
    {
      assert k != i ==> cohort[k].key != cohort[i].key;
    }
  }

  // ---------------------------------------------------------------- laws

  /** The cohort with metric m in other units. */
  function Converted(cohort: seq<Record>, m: Metric, unit: real -> real): (s: seq<Record>)
    ensures |s| == |cohort|
    ensures forall i :: 0 <= i < |cohort| ==> s[i] == ConvertedRecord(cohort[i], m, unit)
  {
    if cohort == [] then [] else [ConvertedRecord(cohort[0], m, unit)] + Converted(cohort[1..], m, unit)
  }

  function ConvertedRecord(r: Record, m: Metric, unit: real -> real): Record {
    if m in r.metrics then r.(metrics := r.metrics[m := unit(r.metrics[m])]) else r
  }

  function Each(s: seq<real>, unit: real -> real): seq<real> {
    if s == [] then [] else [unit(s[0])] + Each(s[1..], unit)
  }

  ghost predicate Rising(unit: real -> real) {
    forall x, y :: unit(x) <= unit(y) <==> x <= y
  }

  lemma {:induction false} ValuesConvert(cohort: seq<Record>, m: Metric, unit: real -> real, n: Metric)
    ensures Values(Converted(cohort, m, unit), n) == if n == m then Each(Values(cohort, n), unit) else Values(cohort, n)
  {
    if cohort != [] {
      ValuesConvert(cohort[1..], m, unit, n);
      var s := Converted(cohort, m, unit);
      assert s[1..] == Converted(cohort[1..], m, unit);
      var rest := Values(cohort[1..], n);
      if n == m && m in cohort[0].metrics {
        var value := cohort[0].metrics[m];
        assert ([value] + rest)[1..] == rest;
        assert Each([value] + rest, unit) == [unit(value)] + Each(rest, unit);
        assert s[0].metrics[m] == unit(value);
      }
    }
  }

  lemma {:induction false} ExtremesConvert(s: seq<real>, unit: real -> real)
    requires s != [] && Rising(unit)
    ensures Each(s, unit) != []
    ensures Least(Each(s, unit)) == unit(Least(s))
    ensures Greatest(Each(s, unit)) == unit(Greatest(s))
  {
    var t := Each(s, unit);
    if |s| == 1 {
      assert t == [unit(s[0])];
    } else {
      ExtremesConvert(s[1..], unit);
      assert t[1..] == Each(s[1..], unit);
    }
  }

  /** Conversions that keep ratios of distances. */
  ghost predicate KeepsPositions(unit: real -> real) {
    forall value, low, high :: low < high && unit(low) < unit(high) ==>
      Position(unit(value), unit(low), unit(high)) == Position(value, low, high)
  }

  lemma GradeConverts(values: seq<real>, value: real, unit: real -> real)
    requires values != [] && Rising(unit) && KeepsPositions(unit)
    ensures Each(values, unit) != []
    ensures Grade(Each(values, unit), unit(value)) == Grade(values, value)
  {
    ExtremesConvert(values, unit);
  }

  lemma {:induction false} GradesConvert(cohort: seq<Record>, m: Metric, unit: real -> real, i: nat, metrics: seq<Metric>)
    requires i < |cohort| && Rising(unit) && KeepsPositions(unit)
    ensures Grades(Converted(cohort, m, unit), Converted(cohort, m, unit)[i], metrics) == Grades(cohort, cohort[i], metrics)
  {
    if metrics != [] {
      var others, metric, r := metrics[..|metrics| - 1], metrics[|metrics| - 1], cohort[i];
      GradesConvert(cohort, m, unit, i, others);
      ValuesConvert(cohort, m, unit, metric);
      if metric in r.metrics {
        ValuesHold(cohort, metric, r);
        if metric == m {
          GradeConverts(Values(cohort, m), r.metrics[m], unit);
        }
      }
    }
  }

  function Affine(a: real, b: real): real -> real { x => a * x + b }

  lemma AffineRises(a: real, b: real, x: real, y: real)
    requires a > 0.0
    ensures Affine(a, b)(x) <= Affine(a, b)(y) <==> x <= y
  {
    var d := (y - x) * a;
    ProductSign(y - x, a);
    assert a * y - a * x == d by {
      Distributes(a, x, y);
    }
    assert Affine(a, b)(y) - Affine(a, b)(x) == d;
  }

  lemma Distributes(a: real, x: real, y: real)
    ensures a * y - a * x == (y - x) * a
  {
  }

  lemma AffineKeepsPositions(a: real, b: real, value: real, low: real, high: real)
    requires a > 0.0 && low < high && Affine(a, b)(low) < Affine(a, b)(high)
    ensures Position(Affine(a, b)(value), Affine(a, b)(low), Affine(a, b)(high)) == Position(value, low, high)
  {
    var d := high - low;
    var x := Position(value, low, high);
    assert x * d == value - low;
    var e := Affine(a, b)(high) - Affine(a, b)(low);
    assert e == a * d;
    assert Affine(a, b)(value) - Affine(a, b)(low) == a * (value - low) == a * (x * d) == x * (a * d) == x * e;
    QuotientOf(x, e);
  }

  lemma QuotientOf(x: real, e: real)
    requires e != 0.0
    ensures x * e / e == x
  {
  }

  /** Units and origin do not matter: rescaling one metric of the whole cohort changes no score. */
  lemma RescalingKeepsEfficiency(cohort: seq<Record>, m: Metric, a: real, b: real, i: nat)
    requires i < |cohort| && a > 0.0
    ensures var rescaled := Converted(cohort, m, Affine(a, b));
            Efficiency(rescaled, rescaled[i]) == Efficiency(cohort, cohort[i])
  {
    var unit := Affine(a, b);
    forall x, y
      ensures unit(x) <= unit(y) <==> x <= y
    {
      AffineRises(a, b, x, y);
    }
    forall value, low, high | low < high && unit(low) < unit(high)
      ensures Position(unit(value), unit(low), unit(high)) == Position(value, low, high)
    {
      AffineKeepsPositions(a, b, value, low, high);
    }
    GradesConvert(cohort, m, unit, i, METRICS);
  }

  lemma GradeMeans(values: seq<real>, value: real)
    requires value in values
    ensures 0.0 <= Grade(values, value) <= 1.0
    ensures Grade(values, value) == 1.0 <==> value == Least(values)
  {
    var low, high := Least(values), Greatest(values);
    if low < high {
      PositionIsInUnit(value, low, high);
    }
  }

  lemma PositionIsInUnit(value: real, low: real, high: real)
    requires low <= value <= high && low < high
    ensures 0.0 <= Position(value, low, high) <= 1.0
    ensures Position(value, low, high) == 0.0 <==> value == low
  {
    PartIsInUnit(value - low, high - low);
  }

  lemma PartIsInUnit(part: real, whole: real)
    requires 0.0 <= part <= whole && whole > 0.0
    ensures 0.0 <= part / whole <= 1.0
    ensures part / whole == 0.0 <==> part == 0.0
  {
    var x := part / whole;
    assert x * whole == part;
    AtMost(x, whole);
  }

  lemma PositionRises(x: real, y: real, low: real, high: real)
    requires x <= y && low < high
    ensures Position(x, low, high) <= Position(y, low, high)
  {
    ShareGrows(x - low, y - low, high - low);
  }

  lemma LowerIsBetter(values: seq<real>, x: real, y: real)
    requires values != [] && x <= y
    ensures Grade(values, x) >= Grade(values, y)
  {
    var low, high := Least(values), Greatest(values);
    if low < high {
      PositionRises(x, y, low, high);
    }
  }

  ghost predicate AsGood(r: Record, s: Record) {
    r.metrics.Keys == s.metrics.Keys && forall m :: m in r.metrics ==> r.metrics[m] <= s.metrics[m]
  }

  lemma {:induction false} GradesDominate(cohort: seq<Record>, r: Record, s: Record, metrics: seq<Metric>)
    requires r in cohort && s in cohort && AsGood(r, s)
    ensures |Grades(cohort, r, metrics)| == |Grades(cohort, s, metrics)|
    ensures Total(Grades(cohort, r, metrics)) >= Total(Grades(cohort, s, metrics))
  {
    if metrics != [] {
      var others, m := metrics[..|metrics| - 1], metrics[|metrics| - 1];
      GradesDominate(cohort, r, s, others);
      if m in r.metrics {
        ValuesHold(cohort, m, r);
        LowerIsBetter(Values(cohort, m), r.metrics[m], s.metrics[m]);
        TotalAdds(Grades(cohort, r, others), Grade(Values(cohort, m), r.metrics[m]));
        TotalAdds(Grades(cohort, s, others), Grade(Values(cohort, m), s.metrics[m]));
      }
    }
  }

  lemma TotalAdds(s: seq<real>, x: real)
    ensures Total(s + [x]) == Total(s) + x
  {
    assert (s + [x])[..|s|] == s;
  }

  /** A record at least as good in everything it measured scores at least as well, whatever the
      rest of the cohort measured. */
  lemma DominanceIsRespected(cohort: seq<Record>, r: Record, s: Record)
    requires r in cohort && s in cohort && AsGood(r, s)
    ensures Efficiency(cohort, r) >= Efficiency(cohort, s)
  {
    GradesDominate(cohort, r, s, METRICS);
    var x, y := Grades(cohort, r, METRICS), Grades(cohort, s, METRICS);
    if |x| > 0 {
      ShareGrows(Total(y), Total(x), |x| as real);
    }
  }

  ghost predicate Unbeaten(cohort: seq<Record>, r: Record, m: Metric) {
    m in r.metrics ==> forall s :: s in cohort && m in s.metrics ==> r.metrics[m] <= s.metrics[m]
  }

  ghost predicate BestEverywhere(cohort: seq<Record>, r: Record, metrics: seq<Metric>) {
    forall m :: m in metrics ==> Unbeaten(cohort, r, m)
  }

  lemma {:induction false} ValuesCome(cohort: seq<Record>, m: Metric, x: real)
    requires x in Values(cohort, m)
    ensures exists s :: s in cohort && m in s.metrics && s.metrics[m] == x
  {
    if m in cohort[0].metrics && cohort[0].metrics[m] == x {
      assert cohort[0] in cohort;
    } else {
      ValuesCome(cohort[1..], m, x);
    }
  }

  lemma LeastIsBest(cohort: seq<Record>, m: Metric, r: Record)
    requires r in cohort && m in r.metrics
    ensures r.metrics[m] in Values(cohort, m)
    ensures r.metrics[m] == Least(Values(cohort, m)) <==> Unbeaten(cohort, r, m)
  {
    ValuesHold(cohort, m, r);
    ValuesCome(cohort, m, Least(Values(cohort, m)));
    forall s | s in cohort && m in s.metrics
      ensures s.metrics[m] in Values(cohort, m)
    {
      ValuesHold(cohort, m, s);
    }
  }

  lemma {:induction false} GradesMean(cohort: seq<Record>, r: Record, metrics: seq<Metric>)
    requires r in cohort
    ensures var g := Grades(cohort, r, metrics);
            && 0.0 <= Total(g) <= |g| as real
            && (Total(g) == |g| as real <==> BestEverywhere(cohort, r, metrics))
  {
    if metrics != [] {
      var others, m := metrics[..|metrics| - 1], metrics[|metrics| - 1];
      GradesMean(cohort, r, others);
      assert forall x :: x in metrics <==> x == m || x in others;
      if m in r.metrics {
        LeastIsBest(cohort, m, r);
        GradeMeans(Values(cohort, m), r.metrics[m]);
        TotalAdds(Grades(cohort, r, others), Grade(Values(cohort, m), r.metrics[m]));
      }
    }
  }

  /** A full score belongs exactly to records nobody beats in anything they measured. */
  lemma FullScoreMeansUnbeaten(cohort: seq<Record>, r: Record)
    requires r in cohort && Measured(r)
    ensures Efficiency(cohort, r) == 1.0 <==> BestEverywhere(cohort, r, METRICS)
  {
    GradesMean(cohort, r, METRICS);
    SomethingIsGraded(cohort, r);
    var g := Grades(cohort, r, METRICS);
    MeanIsInRange(Total(g), |g|);
  }

  lemma SomethingIsGraded(cohort: seq<Record>, r: Record)
    requires r in cohort && Measured(r)
    ensures Grades(cohort, r, METRICS) != []
  {
    var m :| m in r.metrics;
    assert METRICS[match m case Duration => 0 case Tokens => 1 case ToolCalls => 2] == m;
    GradedIfMeasured(cohort, r, m, METRICS);
  }

  lemma {:induction false} GradedIfMeasured(cohort: seq<Record>, r: Record, m: Metric, metrics: seq<Metric>)
    requires r in cohort && m in r.metrics && m in metrics
    ensures Grades(cohort, r, metrics) != []
  {
    if m != metrics[|metrics| - 1] {
      GradedIfMeasured(cohort, r, m, metrics[..|metrics| - 1]);
    }
  }
}
