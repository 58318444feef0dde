/** Completeness and efficiency scores over the reals: scoring/calculator.py. */
module Scoring {
  import opened Wrappers
  import opened Sequences

  datatype LevelResult = LevelResult(levelId: string, attempt: int, passed: bool)

  datatype ScoreError = NoLevels | BadPassingResult | BadKey | BadMetrics

  function Clip(x: real): real {
    if x < 0.0 then 0.0 else if x > 1.0 then 1.0 else x
  }

  // ---------------------------------------------------------------- completeness

  /** Best attempt of each passed level. */
  type Best = map<string, int>

  predicate Acceptable(r: LevelResult) {
    r.passed ==> r.levelId != "" && r.attempt >= 1
  }

  function Noted(best: Best, r: LevelResult): Best {
    if !r.passed then best
    else if r.levelId in best && best[r.levelId] <= r.attempt then best
    else best[r.levelId := r.attempt]
  }

  function BestOf(results: seq<LevelResult>): Best {
    if results == [] then map[] else Noted(BestOf(results[..|results| - 1]), results[|results| - 1])
  }

  ghost function Inverses(best: Best, ids: set<string>): real
    requires ids <= best.Keys && forall id :: id in ids ==> best[id] >= 1
  {
    if ids == {} then 0.0
    else
      var id :| id in ids;
      1.0 / (best[id] as real) + Inverses(best, ids - {id})
  }

  ghost predicate Positive(best: Best) {
    forall id :: id in best ==> best[id] >= 1
  }

  ghost function Credit(best: Best): real
    requires Positive(best)
  {
    Inverses(best, best.Keys)
  }

  lemma {:induction false} InversesWithout(best: Best, ids: set<string>, id: string)
    requires ids <= best.Keys && Positive(best) && id in ids
    ensures Inverses(best, ids) == 1.0 / (best[id] as real) + Inverses(best, ids - {id})
    decreases ids
  {
    var other :| other in ids && Inverses(best, ids) == 1.0 / (best[other] as real) + Inverses(best, ids - {other});
    if other != id {
      InversesWithout(best, ids - {other}, id);
      InversesWithout(best, ids - {id}, other);
      assert ids - {other} - {id} == ids - {id} - {other};
    }
  }

  lemma InverseIsInRange(attempt: int)
    requires attempt >= 1
    ensures 0.0 < 1.0 / (attempt as real) <= 1.0
    ensures 1.0 / (attempt as real) == 1.0 <==> attempt == 1
  {
    var x := 1.0 / (attempt as real);
    assert x * (attempt as real) == 1.0;
  }

  /** Every passed level earns at most one point, and exactly one only on its first attempt. */
  lemma {:induction false} InversesAreBounded(best: Best, ids: set<string>)
    requires ids <= best.Keys && Positive(best)
    ensures 0.0 <= Inverses(best, ids) <= |ids| as real
    ensures ids != {} ==> Inverses(best, ids) > 0.0
    ensures Inverses(best, ids) == |ids| as real <==> forall id :: id in ids ==> best[id] == 1
    decreases ids
  {
    if ids != {} {
      var id :| id in ids;
      InversesWithout(best, ids, id);
      InverseIsInRange(best[id]);
      InversesAreBounded(best, ids - {id});
      assert ids == ids - {id} + {id};
    }
  }

  lemma {:induction false} PassesCount(results: seq<LevelResult>)
    requires forall k :: 0 <= k < |results| ==> Acceptable(results[k])
    ensures Positive(BestOf(results))
    ensures forall id :: id in BestOf(results) <==> exists k :: 0 <= k < |results| && results[k].passed && results[k].levelId == id
    ensures forall k :: 0 <= k < |results| && results[k].passed ==> BestOf(results)[results[k].levelId] <= results[k].attempt
    ensures forall id :: id in BestOf(results) ==>
              exists k :: 0 <= k < |results| && results[k] == LevelResult(id, BestOf(results)[id], true)
  {
    if results != [] {
      var init, last := results[..|results| - 1], results[|results| - 1];
      PassesCount(init);
      assert Acceptable(last);
      assert forall k :: 0 <= k < |init| ==> init[k] == results[k];
      forall id | id in BestOf(results)
        ensures exists k :: 0 <= k < |results| && results[k] == LevelResult(id, BestOf(results)[id], true)
      {
        if id in BestOf(init) && BestOf(init)[id] == BestOf(results)[id] {
          var k :| 0 <= k < |init| && init[k] == LevelResult(id, BestOf(init)[id], true);
          assert results[k] == LevelResult(id, BestOf(results)[id], true);
        } else {
          assert results[|init|] == LevelResult(id, BestOf(results)[id], true);
        }
      }
    }
  }

  function Passed(best: Best, total: nat): nat {
    if |best| <= total then |best| else total
  }

  ghost function Completeness(best: Best, total: nat): real
    requires Positive(best) && total >= 1
  {
    Times(Share(Passed(best, total), total), MeanInverse(best))
  }

  function Share(part: nat, whole: nat): real
    requires whole >= 1
  {
    part as real / whole as real
  }

  function Times(x: real, y: real): real { x * y }

  ghost predicate AllAcceptable(results: seq<LevelResult>) {
    forall k :: 0 <= k < |results| ==> Acceptable(results[k])
  }

  /** The loop over the results. */
  method BestAttempts(results: seq<LevelResult>) returns (r: Option<Best>)
    ensures r.Some? <==> AllAcceptable(results)
    ensures r.Some? ==> r.value == BestOf(results) && Positive(r.value)
  {
    var best: Best := map[];
    for k := 0 to |results|
      invariant best == BestOf(results[..k]) && Positive(best)
      invariant AllAcceptable(results[..k])
    {
      var result := results[k];
      assert results[..k + 1][..k] == results[..k] && results[..k + 1][k] == result;
      if result.passed {
        if result.levelId == "" || result.attempt < 1 {
          assert !Acceptable(result);
          return None;
        }
        var previous := if result.levelId in best then best[result.levelId] else result.attempt;
        var least := if result.attempt < previous then result.attempt else previous;
        if result.levelId in best && least == previous {
          assert best[result.levelId := least] == best;
        }
        best := best[result.levelId := least];
      }
    }
    assert results[..|results|] == results;
    r := Some(best);
  }

  /** `calculate_completeness`. The clips change nothing. */
  method CalculateCompleteness(results: seq<LevelResult>, totalLevels: int)
    returns (r: Result<(real, real, int, Best), ScoreError>)
    ensures r.Err? <==> totalLevels < 1 || !AllAcceptable(results)
    ensures r.Err? ==> r.error == if totalLevels < 1 then NoLevels else BadPassingResult
    ensures r.Ok? ==>
              var (completeness, penalty, passed, best) := r.value;
              && best == BestOf(results) && Positive(best)
              && completeness == Completeness(best, totalLevels)
              && penalty == MeanInverse(best)
              && passed == Passed(best, totalLevels)
  {
    if totalLevels < 1 { return Err(NoLevels); }
    var noted := BestAttempts(results);
    if noted.None? { return Err(BadPassingResult); }
    var best := noted.value;
    var passed := Passed(best, totalLevels);
    var sum := SumInverses(best);
    assert |best| == 0 <==> best == map[];
    var penalty := if |best| == 0 then 0.0 else sum / |best| as real;
    var completeness := Times(Share(passed, totalLevels), penalty);
    ClipsChangeNothing(best, totalLevels);
    r := Ok((Clip(completeness), Clip(penalty), passed, best));
  }

  ghost function MeanInverse(best: Best): real
    requires Positive(best)
  {
    if |best| == 0 then 0.0 else Credit(best) / |best| as real
  }

  lemma ClipsChangeNothing(best: Best, total: nat)
    requires Positive(best) && total >= 1
    ensures 0.0 <= MeanInverse(best) <= 1.0
    ensures 0.0 <= Completeness(best, total) <= 1.0
  {
    InversesAreBounded(best, best.Keys);
    assert |best| == |best.Keys|;
    if |best| > 0 {
      MeanIsInRange(Credit(best), |best|);
    }
    FractionIsInRange(Passed(best, total), total, MeanInverse(best));
  }

  /** The summation inside the mean, over the dictionary's values in whatever order. */
  method SumInverses(best: Best) returns (sum: real)
    requires Positive(best)
    ensures sum == Credit(best)
  {
    var left := best.Keys;
    sum := 0.0;
    while left != {}
      invariant left <= best.Keys
      invariant sum + Inverses(best, left) == Credit(best)
      decreases left
    {
      var id :| id in left;
      InversesWithout(best, left, id);
      sum := sum + 1.0 / best[id] as real;
      left := left - {id};
    }
  }

  lemma MeanIsInRange(sum: real, n: nat)
    requires n >= 1 && 0.0 <= sum <= n as real
    ensures 0.0 <= sum / n as real <= 1.0
    ensures sum / n as real == 1.0 <==> sum == n as real
  {
    var x, m := sum / n as real, n as real;
    assert x * m == sum;
    AtMost(x, m);
  }

  lemma AtMost(x: real, m: real)
    requires m > 0.0 && 0.0 <= x * m <= m
    ensures 0.0 <= x <= 1.0
    ensures x == 1.0 <==> x * m == m
  {
    assert (1.0 - x) * m == m - x * m;
    ProductSign(1.0 - x, m);
    ProductSign(x, m);
  }

  lemma ProductSign(a: real, m: real)
    requires m > 0.0
    ensures a * m > 0.0 <==> a > 0.0
    ensures a * m < 0.0 <==> a < 0.0
  {
  }

  lemma FractionIsInRange(passed: nat, total: nat, penalty: real)
    requires passed <= total && total >= 1 && 0.0 <= penalty <= 1.0
    ensures 0.0 <= Times(Share(passed, total), penalty) <= 1.0
  {
    MeanIsInRange(passed as real, total);
    var x := passed as real / total as real;
    if penalty > 0.0 {
      ProductSign(x, penalty);
      ProductSign(1.0 - x, penalty);
      assert (1.0 - x) * penalty == penalty - x * penalty;
    }
  }

  /** Completeness is the credit per level exactly while no more levels passed than there are. */
  lemma CompletenessIsCreditPerLevel(best: Best, total: nat)
    requires Positive(best) && total >= 1
    ensures Completeness(best, total) == Credit(best) / total as real <==> |best| <= total
  {
    CreditIsPositive(best);
    if |best| > 0 {
      PerLevel(Credit(best), |best| as real, total as real);
    }
  }

  lemma CreditIsPositive(best: Best)
    requires Positive(best)
    ensures if |best| == 0 then Credit(best) == 0.0 else Credit(best) > 0.0
  {
    InversesAreBounded(best, best.Keys);
    assert |best| == |best.Keys|;
    assert |best| == 0 ==> best.Keys == {};
  }

  lemma PerLevel(credit: real, n: real, t: real)
    requires credit > 0.0 && n > 0.0 && t > 0.0
    ensures Times(n / t, credit / n) == credit / t
    ensures Times(t / t, credit / n) == credit / t <==> n == t
  {
    Swap(credit, n, t);
    assert t / t == 1.0;
    if n > t {
      SmallerShare(credit, t, n);
    } else if n < t {
      SmallerShare(credit, n, t);
    }
  }

  lemma Swap(a: real, b: real, c: real)
    requires b > 0.0 && c > 0.0
    ensures (b / c) * (a / b) == a / c
  {
    var x, y := b / c, a / b;
    assert x * c == b && y * b == a;
    calc {
      x * y * c;
      (x * c) * y;
      a;
    }
  }

  lemma SmallerShare(a: real, b: real, c: real)
    requires a > 0.0 && 0.0 < b < c
    ensures a / c < a / b
  {
    var x, y := a / b, a / c;
    assert x * b == a && y * c == a;
    ProductSign(x, b);
    assert (x - y) * c == x * (c - b);
    ProductSign(x, c - b);
    ProductSign(x - y, c);
  }

  ghost predicate SameResults(a: seq<LevelResult>, b: seq<LevelResult>) {
    forall r :: r in a <==> r in b
  }

  /** Only which results were reported matters, not in what order or how often. */
  lemma OrderDoesNotMatter(a: seq<LevelResult>, b: seq<LevelResult>)
    requires AllAcceptable(a) && SameResults(a, b)
    ensures AllAcceptable(b) && BestOf(a) == BestOf(b)
  {
    forall k | 0 <= k < |b|
      ensures Acceptable(b[k])
    {
      assert b[k] in a;
    }
    NoWorse(a, b);
    NoWorse(b, a);
  }

  /** With more results every level passed stays passed, with no later best attempt. */
  lemma NoWorse(a: seq<LevelResult>, b: seq<LevelResult>)
    requires AllAcceptable(a) && AllAcceptable(b) && forall r :: r in a ==> r in b
    ensures forall id :: id in BestOf(a) ==> id in BestOf(b) && BestOf(b)[id] <= BestOf(a)[id]
  {
    PassesCount(a);
    PassesCount(b);
    forall id | id in BestOf(a)
      ensures id in BestOf(b) && BestOf(b)[id] <= BestOf(a)[id]
    {
      var k :| 0 <= k < |a| && a[k] == LevelResult(id, BestOf(a)[id], true);
      assert a[k] in b;
      var j :| 0 <= j < |b| && b[j] == a[k];
    }
  }

  lemma {:induction false} CreditGrows(worse: Best, better: Best, ids: set<string>)
    requires Positive(worse) && Positive(better) && ids <= worse.Keys
    requires forall id :: id in worse ==> id in better && better[id] <= worse[id]
    ensures Inverses(worse, ids) <= Inverses(better, ids)
    decreases ids
  {
    if ids != {} {
      var id :| id in ids;
      InversesWithout(worse, ids, id);
      InversesWithout(better, ids, id);
      CreditGrows(worse, better, ids - {id});
      InverseFalls(better[id], worse[id]);
    }
  }

  lemma InverseFalls(a: int, b: int)
    requires 1 <= a <= b
    ensures 1.0 / b as real <= 1.0 / a as real
  {
    var x, y := 1.0 / a as real, 1.0 / b as real;
    assert x * a as real == 1.0 && y * b as real == 1.0;
    InverseIsInRange(a);
    ShareGrows(x * a as real, x * b as real, b as real);
    assert x * b as real / b as real == x;
  }

  lemma {:induction false} SubsetCredit(best: Best, some: set<string>, more: set<string>)
    requires Positive(best) && some <= more <= best.Keys
    ensures Inverses(best, some) <= Inverses(best, more)
    decreases more
  {
    if some != more {
      var id :| id in more && id !in some;
      InversesWithout(best, more, id);
      InverseIsInRange(best[id]);
      SubsetCredit(best, some, more - {id});
    }
  }

  /** Extra results never lower completeness, as long as no more levels pass than there are. */
  lemma ExtraResultsNeverHurt(a: seq<LevelResult>, b: seq<LevelResult>, total: nat)
    requires AllAcceptable(a) && AllAcceptable(b) && total >= 1
    requires forall r :: r in a ==> r in b
    requires |BestOf(b)| <= total
    ensures Positive(BestOf(a)) && Positive(BestOf(b))
    ensures Completeness(BestOf(a), total) <= Completeness(BestOf(b), total)
  {
    PassesCount(a);
    PassesCount(b);
    NoWorse(a, b);
    var x, y := BestOf(a), BestOf(b);
    assert x.Keys <= y.Keys;
    Fewer(x.Keys, y.Keys);
    assert |x| == |x.Keys| && |y| == |y.Keys|;
    CompletenessIsCreditPerLevel(x, total);
    CompletenessIsCreditPerLevel(y, total);
    CreditGrows(x, y, x.Keys);
    SubsetCredit(y, x.Keys, y.Keys);
    ShareGrows(Credit(x), Credit(y), total as real);
  }

  lemma ShareGrows(a: real, b: real, c: real)
    requires a <= b && c > 0.0
    ensures a / c <= b / c
  {
    var x, y := a / c, b / c;
    assert x * c == a && y * c == b;
  }

  // ---------------------------------------------------------------- when one more result costs

  lemma BestAfter(a: seq<LevelResult>, r: LevelResult)
    ensures BestOf(a + [r]) == Noted(BestOf(a), r)
  {
    assert (a + [r])[..|a|] == a;
  }

  lemma CreditOfNewLevel(best: Best, id: string, attempt: int)
    requires Positive(best) && id !in best && attempt >= 1
    ensures var after := best[id := attempt];
            Positive(after) && |after| == |best| + 1 && Credit(after) == Credit(best) + 1.0 / attempt as real
  {
    var after := best[id := attempt];
    assert after.Keys == best.Keys + {id};
    assert |after| == |after.Keys| && |best| == |best.Keys|;
    InversesWithout(after, after.Keys, id);
    assert after.Keys - {id} == best.Keys;
    SameInverses(after, best, best.Keys);
  }

  lemma {:induction false} SameInverses(x: Best, y: Best, ids: set<string>)
    requires Positive(x) && Positive(y) && ids <= x.Keys && ids <= y.Keys
    requires forall id :: id in ids ==> x[id] == y[id]
    ensures Inverses(x, ids) == Inverses(y, ids)
    decreases ids
  {
    if ids != {} {
      var id :| id in ids;
      InversesWithout(x, ids, id);
      InversesWithout(y, ids, id);
      SameInverses(x, y, ids - {id});
    }
  }

  /** The result costs: a further level passes although enough have, on an attempt later than the
      average so far. A caller can check it before the result is counted. */
  predicate Costs(best: Best, credit: real, r: LevelResult, total: nat) {
    r.passed && r.levelId !in best && |best| >= total && r.attempt as real * credit > |best| as real
  }

  /** Of a mean of n inverses, one more inverse lowers it exactly when it lies below. */
  lemma MeanFalls(credit: real, n: nat, attempt: int)
    requires n >= 1 && attempt >= 1 && credit > 0.0
    ensures (credit + 1.0 / attempt as real) / (n + 1) as real < credit / n as real <==> attempt as real * credit > n as real
  {
    var m, t, x := n as real, attempt as real, 1.0 / attempt as real;
    assert x * t == 1.0;
    CompareShares(credit + x, m + 1.0, credit, m);
    assert (credit + x) * m - credit * (m + 1.0) == x * m - credit;
    assert (x * m - credit) * t == m - t * credit by {
      assert x * m * t == m * (x * t);
    }
    ProductSign(x * m - credit, t);
  }

  lemma CompareShares(a: real, b: real, c: real, d: real)
    requires b > 0.0 && d > 0.0
    ensures a / b < c / d <==> a * d < c * b
  {
    var x, y := a / b, c / d;
    assert x * b == a && y * d == c;
    var bd := b * d;
    ProductSign(b, d);
    assert x * bd == a * d by {
      assert x * (b * d) == (x * b) * d;
    }
    assert y * bd == c * b by {
      assert y * (b * d) == (y * d) * b;
    }
    assert (y - x) * bd == c * b - a * d;
    ProductSign(y - x, bd);
  }

  lemma ScoredIsPositive(results: seq<LevelResult>)
    requires AllAcceptable(results)
    ensures Positive(BestOf(results))
  {
    PassesCount(results);
  }

  /** Exactly when one more result lowers completeness. */
  lemma OneMoreResultCostsExactlyWhen(a: seq<LevelResult>, r: LevelResult, total: nat)
    requires AllAcceptable(a) && Acceptable(r) && total >= 1
    ensures Positive(BestOf(a)) && Positive(BestOf(a + [r]))
    ensures Completeness(BestOf(a + [r]), total) < Completeness(BestOf(a), total) <==>
            Costs(BestOf(a), Credit(BestOf(a)), r, total)
  {
    ScoredIsPositive(a);
    BestAfter(a, r);
    NotedCosts(BestOf(a), r, total);
  }

  lemma NotedCosts(best: Best, r: LevelResult, total: nat)
    requires Positive(best) && Acceptable(r) && total >= 1
    ensures Positive(Noted(best, r))
    ensures Completeness(Noted(best, r), total) < Completeness(best, total) <==> Costs(best, Credit(best), r, total)
  {
    if r.passed && r.levelId !in best {
      NewLevelCosts(best, r.levelId, r.attempt, total);
    } else {
      SameLevelsNeverCost(best, r, total);
    }
  }

  lemma SameLevelsNeverCost(best: Best, r: LevelResult, total: nat)
    requires Positive(best) && Acceptable(r) && total >= 1 && (r.passed ==> r.levelId in best)
    ensures Positive(Noted(best, r)) && Completeness(Noted(best, r), total) >= Completeness(best, total)
  {
    var after := Noted(best, r);
    assert after.Keys == best.Keys && |after| == |after.Keys| && |best| == |best.Keys|;
    CreditGrows(best, after, best.Keys);
    SharesGrow(best, after, total);
  }

  /** With the same number of levels passed, more credit is more completeness. */
  lemma SharesGrow(x: Best, y: Best, total: nat)
    requires Positive(x) && Positive(y) && |x| == |y| && Credit(x) <= Credit(y) && total >= 1
    ensures Completeness(x, total) <= Completeness(y, total)
  {
    if |x| > 0 {
      ShareGrows(Credit(x), Credit(y), |x| as real);
    }
    var share := Share(Passed(x, total), total);
    MeanIsInRange(Passed(x, total) as real, total);
    TimesGrows(share, MeanInverse(x), MeanInverse(y));
  }

  lemma TimesGrows(share: real, x: real, y: real)
    requires share >= 0.0 && x <= y
    ensures Times(share, x) <= Times(share, y)
  {
  }

  lemma NewLevelCosts(best: Best, id: string, attempt: int, total: nat)
    requires Positive(best) && id !in best && id != "" && attempt >= 1 && total >= 1
    ensures Positive(best[id := attempt])
    ensures Completeness(best[id := attempt], total) < Completeness(best, total) <==>
            |best| >= total && attempt as real * Credit(best) > |best| as real
  {
    var after := best[id := attempt];
    CreditOfNewLevel(best, id, attempt);
    InverseIsInRange(attempt);
    CreditIsPositive(best);
    CreditIsPositive(after);
    if |best| < total {
      CompletenessIsCreditPerLevel(best, total);
      CompletenessIsCreditPerLevel(after, total);
      ShareGrows(Credit(best), Credit(after), total as real);
    } else {
      MeanFalls(Credit(best), |best|, attempt);
      FullShare(best, total);
      FullShare(after, total);
    }
  }

  lemma FullShare(best: Best, total: nat)
    requires Positive(best) && |best| >= total >= 1
    ensures Completeness(best, total) == Credit(best) / |best| as real
  {
    var t := total as real;
    assert t / t == 1.0;
    assert Share(total, total) == t / t;
    TimesOne(MeanInverse(best));
  }

  lemma TimesOne(x: real)
    ensures Times(1.0, x) == x
  {
  }

  lemma {:induction false} SomeFreshId(ids: set<string>) returns (id: string)
    ensures id !in ids && id != ""
    ensures forall other :: other in ids ==> |other| < |id|
    decreases ids
  {
    if ids == {} {
      id := "L";
    } else {
      var other :| other in ids;
      var shorter := SomeFreshId(ids - {other});
      id := shorter + other + "L";
    }
  }

  /** Further results can only help exactly while a level is still missing: with a level to go none
      lowers completeness, and once as many levels passed as there are some acceptable one does. */
  lemma ExtraResultsHelpExactlyWhile(a: seq<LevelResult>, total: nat)
    requires AllAcceptable(a) && total >= 1
    ensures forall r :: Acceptable(r) ==> Positive(BestOf(a)) && Positive(BestOf(a + [r]))
    ensures (forall r :: Acceptable(r) ==> Completeness(BestOf(a), total) <= Completeness(BestOf(a + [r]), total))
            <==> |BestOf(a)| < total
  {
    var best := BestOf(a);
    forall r | Acceptable(r)
      ensures Positive(best) && Positive(BestOf(a + [r]))
      ensures Completeness(BestOf(a + [r]), total) < Completeness(best, total) <==> Costs(best, Credit(best), r, total)
    {
      OneMoreResultCostsExactlyWhen(a, r, total);
    }
    if |best| >= total {
      var r := ResultThatCosts(best, total);
      assert Acceptable(r) && Costs(best, Credit(best), r, total);
    }
  }

  lemma ResultThatCosts(best: Best, total: nat) returns (r: LevelResult)
    requires Positive(best) && |best| >= total >= 1
    ensures Acceptable(r) && Costs(best, Credit(best), r, total)
  {
    var id := SomeFreshId(best.Keys);
    CreditIsPositive(best);
    var credit, n := Credit(best), |best| as real;
    var x := n / credit;
    assert x * credit == n;
    var attempt := x.Floor + 1;
    ProductSign(attempt as real - x, credit);
    assert attempt as real * credit == (attempt as real - x) * credit + x * credit;
    ProductSign(x, credit);
    r := LevelResult(id, attempt, true);
  }

  /** Such a pair of results: the penalty is averaged over more levels than are scored. */
  lemma AnExtraLevelCanHurt()
    ensures var one := [LevelResult("L1", 1, true)];
            var two := one + [LevelResult("L2", 2, true)];
            && Positive(BestOf(one)) && Positive(BestOf(two))
            && Completeness(BestOf(two), 1) < Completeness(BestOf(one), 1)
  {
    var one := [LevelResult("L1", 1, true)];
    var two := one + [LevelResult("L2", 2, true)];
    assert one[..0] == [] && two[..1] == one;
    var x, y := BestOf(one), BestOf(two);
    assert "L1"[1] != "L2"[1];
    assert x == map["L1" := 1] && y == map["L1" := 1, "L2" := 2];
    CreditOfTwo(x, y, "L1", "L2");
  }

  lemma CreditOfTwo(x: Best, y: Best, a: string, b: string)
    requires a != b && x == map[a := 1] && y == map[a := 1, b := 2]
    ensures Positive(x) && Positive(y) && Completeness(y, 1) < Completeness(x, 1)
  {
    assert |x| >= 1 && |y| >= 1;
    assert x[a] == 1 && y[b] == 2 && b in y;
    FullCompleteness(x, 1);
    FullCompleteness(y, 1);
  }

  /** Completeness is full exactly when enough levels passed, all of them on the first attempt. */
  lemma FullCompleteness(best: Best, total: nat)
    requires Positive(best) && total >= 1
    ensures 0.0 <= Completeness(best, total) <= 1.0
    ensures Completeness(best, total) == 1.0 <==> |best| >= total && forall id :: id in best ==> best[id] == 1
  {
    InversesAreBounded(best, best.Keys);
    var n := |best|;
    assert n == |best.Keys|;
    if n > 0 {
      var passed := Passed(best, total);
      var share, mean := Share(passed, total), MeanInverse(best);
      MeanIsInRange(Credit(best), n);
      MeanIsInRange(passed as real, total);
      FractionIsInRange(passed, total, mean);
      ProductIsFull(share, mean);
    }
  }

  lemma ProductIsFull(x: real, y: real)
    requires 0.0 <= x <= 1.0 && 0.0 <= y <= 1.0
    ensures x * y == 1.0 <==> x == 1.0 && y == 1.0
  {
    if x * y == 1.0 {
      assert y != 0.0;
      ProductSign(1.0 - x, y);
      assert (1.0 - x) * y == y - 1.0;
      assert y == 1.0;
    }
  }
}
