/** Multi-level episodes: progression/builder.py. */
module Builder {
  import opened Wrappers
  import opened Labels
  import opened Sequences

  datatype DisturbanceType =
    | TargetDrift | ResourceQuotaReduction | TelemetryInstability | MetricDataGap
    | FaultEffectDeviation | BaselineDrift | SafetyThresholdPressure | CleanupDelay

  const ALL_TYPES: seq<DisturbanceType> :=
    [TargetDrift, ResourceQuotaReduction, TelemetryInstability, MetricDataGap,
     FaultEffectDeviation, BaselineDrift, SafetyThresholdPressure, CleanupDelay]

  function TypeName(t: DisturbanceType): string {
    match t
    case TargetDrift => "target_drift"
    case ResourceQuotaReduction => "resource_quota_reduction"
    case TelemetryInstability => "telemetry_instability"
    case MetricDataGap => "metric_data_gap"
    case FaultEffectDeviation => "fault_effect_deviation"
    case BaselineDrift => "baseline_drift"
    case SafetyThresholdPressure => "safety_threshold_pressure"
    case CleanupDelay => "cleanup_delay"
  }

  datatype Complexity = Baseline | Single | Compound | FullChain

  datatype Disturbance = Disturbance(id: string, kind: DisturbanceType)

  datatype Level = Level(id: string, complexity: Complexity, disturbances: seq<Disturbance>, retryBudget: int)

  datatype Episode = Episode(id: string, levels: seq<Level>, totalRetryBudget: int)

  datatype Plan = Plan(episodeId: string, faultType: string, maxExperiments: Option<int>, totalRetryBudget: Option<int>)

  datatype EpisodeError =
    | NoLevels | NotABaseline | IdsNotContiguous | LessComplex | UnfundedLevel | DuplicateIds | BudgetMismatch

  datatype BuildError = LevelCountOutOfRange | NoEpisodeId | BudgetTooSmall | RepeatedType | UnknownType

  function Ids(disturbances: seq<Disturbance>): (ids: seq<string>)
    ensures |ids| == |disturbances|
  {
    seq(|disturbances|, i requires 0 <= i < |disturbances| => disturbances[i].id)
  }

  function Budgets(levels: seq<Level>): (budgets: seq<int>)
    ensures |budgets| == |levels|
  {
    seq(|levels|, i requires 0 <= i < |levels| => levels[i].retryBudget)
  }

  function Sum(s: seq<int>): int {
    if s == [] then 0 else Sum(s[..|s| - 1]) + s[|s| - 1]
  }

  // ---------------------------------------------------------------- validation

  ghost predicate LevelSound(level: Level) {
    level.retryBudget >= 1 && Distinct(Ids(level.disturbances))
  }

  ghost predicate Contiguous(levels: seq<Level>) {
    forall i :: 0 <= i < |levels| ==> levels[i].id == LevelId(i + 1)
  }

  ghost predicate NeverLessComplex(levels: seq<Level>) {
    forall i, j :: 0 <= i < j < |levels| ==> |levels[i].disturbances| <= |levels[j].disturbances|
  }

  ghost predicate LevelsSound(levels: seq<Level>) {
    forall i :: 0 <= i < |levels| ==> LevelSound(levels[i])
  }

  ghost predicate Sound(e: Episode) {
    && e.levels != []
    && e.levels[0].disturbances == []
    && Contiguous(e.levels) && NeverLessComplex(e.levels) && LevelsSound(e.levels)
    && Sum(Budgets(e.levels)) == e.totalRetryBudget
  }

  lemma BudgetsOfPrefix(levels: seq<Level>, i: nat)
    requires i < |levels|
    ensures Sum(Budgets(levels[..i + 1])) == Sum(Budgets(levels[..i])) + levels[i].retryBudget
  {
    assert Budgets(levels[..i + 1])[..i] == Budgets(levels[..i]);
  }

  /** The checks of one level, given how many disturbances the level before it has. */
  function LevelFault(level: Level, previousCount: int): Option<EpisodeError> {
    if |level.disturbances| < previousCount then Some(LessComplex)
    else if level.retryBudget < 1 then Some(UnfundedLevel)
    else if |Elements(Ids(level.disturbances))| != |level.disturbances| then Some(DuplicateIds)
    else None
  }

  ghost predicate Blames(levels: seq<Level>, error: EpisodeError) {
    match error
    case NoLevels => levels == []
    case NotABaseline => levels != [] && !(levels[0].id == "L1" && levels[0].disturbances == [])
    case IdsNotContiguous => !Contiguous(levels)
    case LessComplex => !NeverLessComplex(levels)
    case UnfundedLevel => exists i :: 0 <= i < |levels| && levels[i].retryBudget < 1
    case DuplicateIds => exists i :: 0 <= i < |levels| && !Distinct(Ids(levels[i].disturbances))
    case BudgetMismatch => true
  }

  lemma LevelFaultMeans(level: Level, previousCount: int)
    ensures LevelFault(level, previousCount) == None <==> |level.disturbances| >= previousCount && LevelSound(level)
    ensures LevelFault(level, previousCount) == Some(DuplicateIds) ==> !Distinct(Ids(level.disturbances))
  {
    DistinctByCount(Ids(level.disturbances));
  }

  lemma OneMoreLevel(levels: seq<Level>, i: nat)
    requires i < |levels| && NeverLessComplex(levels[..i]) && LevelsSound(levels[..i]) && LevelSound(levels[i])
    requires i > 0 ==> |levels[i].disturbances| >= |levels[i - 1].disturbances|
    ensures NeverLessComplex(levels[..i + 1]) && LevelsSound(levels[..i + 1])
  {
    assert levels[..i + 1] == levels[..i] + [levels[i]];
    assert i > 0 ==> levels[i - 1] == levels[..i][i - 1];
  }

  /** The loop over the levels: the first fault, or the sum of the budgets. */
  method CheckLevels(levels: seq<Level>) returns (fault: Option<EpisodeError>, retrySum: int)
    ensures fault == None <==> NeverLessComplex(levels) && LevelsSound(levels)
    ensures fault == None ==> retrySum == Sum(Budgets(levels))
    ensures fault.Some? ==> fault.value in {LessComplex, UnfundedLevel, DuplicateIds} && Blames(levels, fault.value)
  {
    var previousCount := -1;
    retrySum := 0;
    for i := 0 to |levels|
      invariant previousCount == if i == 0 then -1 else |levels[i - 1].disturbances|
      invariant NeverLessComplex(levels[..i]) && LevelsSound(levels[..i])
      invariant retrySum == Sum(Budgets(levels[..i]))
    {
      var level := levels[i];
      LevelFaultMeans(level, previousCount);
      fault := LevelFault(level, previousCount);
      if fault.Some? {
        return;
      }
      OneMoreLevel(levels, i);
      previousCount := |level.disturbances|;
      BudgetsOfPrefix(levels, i);
      retrySum := retrySum + level.retryBudget;
    }
    assert levels[..|levels|] == levels;
    fault := None;
  }

  /** `validate_multi_level_episode`: accepts exactly the sound episodes, and blames a real fault. */
  method ValidateEpisode(e: Episode) returns (r: Result<(), EpisodeError>)
    ensures r.Ok? <==> Sound(e)
    ensures r.Err? ==> Blames(e.levels, r.error)
    ensures r == Err(BudgetMismatch) ==> Sum(Budgets(e.levels)) != e.totalRetryBudget
  {
    var levels := e.levels;
    assert LevelId(0 + 1) == "L1";
    if levels == [] { return Err(NoLevels); }
    if levels[0].id != "L1" || levels[0].disturbances != [] { return Err(NotABaseline); }
    if !forall i :: 0 <= i < |levels| ==> levels[i].id == LevelId(i + 1) { return Err(IdsNotContiguous); }
    var fault, retrySum := CheckLevels(levels);
    if fault.Some? { return Err(fault.value); }
    if retrySum != e.totalRetryBudget { return Err(BudgetMismatch); }
    r := Ok(());
  }

  // ---------------------------------------------------------------- attempts

  /** Level i's share: one attempt, and the rest dealt out in turn from the last level down. */
  function Share(n: nat, total: int, i: nat): int
    requires n >= 1
  {
    1 + (total - n + i) / n
  }

  lemma {:induction false} SumBump(s: seq<int>, i: nat)
    requires i < |s|
    ensures Sum(s[i := s[i] + 1]) == Sum(s) + 1
  {
    var t := s[i := s[i] + 1];
    var last := |s| - 1;
    if i == last {
      assert t[..last] == s[..last];
    } else {
      assert t[..last] == s[..last][i := s[i] + 1];
      SumBump(s[..last], i);
    }
  }

  lemma {:induction false} SumOfOnes(s: seq<int>)
    requires forall i :: 0 <= i < |s| ==> s[i] == 1
    ensures Sum(s) == |s|
  {
    if s != [] {
      SumOfOnes(s[..|s| - 1]);
    }
  }

  lemma Quotient(x: int, n: nat, q: int, rest: int)
    requires n >= 1 && x == q * n + rest && 0 <= rest < n
    ensures x / n == q
  {
    var d := x / n - q;
    assert d * n == rest - x % n;
  }

  /** The attempts of level i after `rounds` full rounds and `dealt` more from the end. */
  ghost predicate Dealt(result: seq<int>, rounds: nat, dealt: nat) {
    forall i :: 0 <= i < |result| ==> result[i] == 1 + rounds + (if i >= |result| - dealt then 1 else 0)
  }

  lemma DealtIsShare(result: seq<int>, total: int, rounds: nat, dealt: nat, i: nat)
    requires Dealt(result, rounds, dealt) && dealt < |result| && i < |result|
    requires total - |result| == rounds * |result| + dealt
    ensures result[i] == Share(|result|, total, i)
  {
    var n := |result|;
    if i >= n - dealt {
      assert (rounds + 1) * n == rounds * n + n;
      Quotient(total - n + i, n, rounds + 1, dealt + i - n);
    } else {
      Quotient(total - n + i, n, rounds, dealt + i);
    }
  }

  /** `_allocate_attempts`: dealing one at a time leaves exactly the closed-form shares. */
  method AllocateAttempts(levelCount: nat, total: int) returns (result: seq<int>)
    requires 1 <= levelCount <= total
    ensures |result| == levelCount
    ensures forall i :: 0 <= i < levelCount ==> result[i] == Share(levelCount, total, i)
    ensures forall i :: 0 <= i < levelCount ==> result[i] >= 1
    ensures Sum(result) == total
  {
    result := seq(levelCount, _ => 1);
    SumOfOnes(result);
    var remaining := total - levelCount;
    var index := levelCount - 1;
    ghost var rounds, dealt, given := 0, 0, 0;
    while remaining != 0
      invariant |result| == levelCount && 0 <= remaining
      invariant 0 <= dealt < levelCount && index == levelCount - 1 - dealt
      invariant total - levelCount - remaining == given + dealt && given == rounds * levelCount && rounds >= 0
      invariant Dealt(result, rounds, dealt)
      invariant Sum(result) == total - remaining
    {
      SumBump(result, index);
      result := result[index := result[index] + 1];
      remaining := remaining - 1;
      assert Dealt(result, rounds, dealt + 1);
      if dealt + 1 == levelCount {
        assert index == 0;
        WrapsRound(levelCount);
        NextRound(rounds, levelCount);
        rounds, dealt, given := rounds + 1, 0, given + levelCount;
      } else {
        StaysInRound(index, levelCount);
        dealt := dealt + 1;
      }
      index := (index - 1) % levelCount;
    }
    forall i | 0 <= i < levelCount
      ensures result[i] == Share(levelCount, total, i)
    {
      DealtIsShare(result, total, rounds, dealt, i);
    }
  }

  lemma WrapsRound(n: nat)
    requires n >= 1
    ensures -1 % n == n - 1
  {
  }

  lemma StaysInRound(index: nat, n: nat)
    requires 1 <= index < n
    ensures (index - 1) % n == index - 1
  {
  }

  lemma NextRound(rounds: nat, n: nat)
    ensures (rounds + 1) * n == rounds * n + n
  {
  }

  /** The shares never decrease and differ by at most one. */
  lemma SharesAreLevel(n: nat, total: int, i: nat, j: nat)
    requires 1 <= n <= total && i < j < n
    ensures Share(n, total, i) <= Share(n, total, j) <= Share(n, total, i) + 1
  {
    var x, y := total - n + i, total - n + j;
    assert n * (y / n - x / n) == y - x - y % n + x % n;
    FactorIsZeroOrOne(n, y / n - x / n);
  }

  lemma FactorIsZeroOrOne(n: nat, d: int)
    requires 0 < n + n * d && n * d < 2 * n
    ensures 0 <= d <= 1
  {
  }

  // ---------------------------------------------------------------- disturbances

  function Relevant(faultType: string): seq<DisturbanceType> {
    match faultType
    case "latency" => [FaultEffectDeviation, TelemetryInstability, CleanupDelay]
    case "network-delay" => [FaultEffectDeviation, TelemetryInstability, CleanupDelay]
    case "packet_loss" => [FaultEffectDeviation, MetricDataGap, CleanupDelay]
    case "network-loss" => [FaultEffectDeviation, MetricDataGap, CleanupDelay]
    case "cpu_pressure" => [ResourceQuotaReduction, TelemetryInstability, SafetyThresholdPressure]
    case "cpu-load" => [ResourceQuotaReduction, TelemetryInstability, SafetyThresholdPressure]
    case "memory_pressure" => [ResourceQuotaReduction, MetricDataGap, SafetyThresholdPressure]
    case "memory-stress" => [ResourceQuotaReduction, MetricDataGap, SafetyThresholdPressure]
    case _ => [TargetDrift, TelemetryInstability, CleanupDelay]
  }

  function Without(types: seq<DisturbanceType>, taken: seq<DisturbanceType>): seq<DisturbanceType> {
    if types == [] then []
    else if types[0] in taken then Without(types[1..], taken)
    else [types[0]] + Without(types[1..], taken)
  }

  function RecommendedTypes(faultType: string): seq<DisturbanceType> {
    Relevant(faultType) + Without(ALL_TYPES, Relevant(faultType))
  }

  lemma {:induction false} WithoutKeeps(types: seq<DisturbanceType>, taken: seq<DisturbanceType>)
    requires Distinct(types)
    ensures forall t :: t in Without(types, taken) <==> t in types && t !in taken
    ensures Distinct(Without(types, taken))
  {
    if types != [] {
      WithoutKeeps(types[1..], taken);
      assert forall t :: t in types <==> t == types[0] || t in types[1..];
      assert types[0] !in types[1..];
    }
  }

  /** Whatever the fault, the recommended order names all eight types once. */
  lemma RecommendedNamesAllOnce(faultType: string)
    ensures Distinct(RecommendedTypes(faultType))
    ensures forall t: DisturbanceType :: t in RecommendedTypes(faultType)
  {
    var first := Relevant(faultType);
    WithoutKeeps(ALL_TYPES, first);
    assert forall t: DisturbanceType :: t in ALL_TYPES by {
      forall t: DisturbanceType ensures t in ALL_TYPES {
        match t {
          case TargetDrift => assert ALL_TYPES[0] == t;
          case ResourceQuotaReduction => assert ALL_TYPES[1] == t;
          case TelemetryInstability => assert ALL_TYPES[2] == t;
          case MetricDataGap => assert ALL_TYPES[3] == t;
          case FaultEffectDeviation => assert ALL_TYPES[4] == t;
          case BaselineDrift => assert ALL_TYPES[5] == t;
          case SafetyThresholdPressure => assert ALL_TYPES[6] == t;
          case CleanupDelay => assert ALL_TYPES[7] == t;
        }
      }
    }
    DistinctTogether(first, Without(ALL_TYPES, first));
  }

  function TypesForLevel(index: nat, ordered: seq<DisturbanceType>): seq<DisturbanceType> {
    if index == 0 then [] else ordered[..if index < |ordered| then index else |ordered|]
  }

  /** Each level adds to the one before it: its types begin with all of theirs. */
  lemma LevelsOnlyAdd(i: nat, j: nat, ordered: seq<DisturbanceType>)
    requires i <= j
    ensures TypesForLevel(i, ordered) <= TypesForLevel(j, ordered)
    ensures |TypesForLevel(j, ordered)| == if j < |ordered| then j else |ordered|
  {
  }

  /** The names differ in length, but for two pairs. */
  lemma TypeNameIdentifies(t: DisturbanceType, t': DisturbanceType)
    requires TypeName(t) == TypeName(t')
    ensures t == t'
  {
    var name := TypeName(t);
    assert |name| == |TypeName(t')|;
    assert name[0] == TypeName(t')[0];
  }

  function DisturbanceId(level: nat, item: nat, t: DisturbanceType): string {
    LevelId(level) + ("-" + ("D" + (Decimal(item) + ("-" + TypeName(t)))))
  }

  /** A disturbance id tells its level, its place and its type. */
  lemma DisturbanceIdIdentifies(level: nat, item: nat, t: DisturbanceType, level': nat, item': nat, t': DisturbanceType)
    requires DisturbanceId(level, item, t) == DisturbanceId(level', item', t')
    ensures level == level' && item == item' && t == t'
  {
    var x, y := Decimal(item) + ("-" + TypeName(t)), Decimal(item') + ("-" + TypeName(t'));
    Joined("L", Decimal(level), "-" + ("D" + x));
    Joined("L", Decimal(level'), "-" + ("D" + y));
    CutPrefix("L", Decimal(level) + ("-" + ("D" + x)), Decimal(level') + ("-" + ("D" + y)));
    NumberThenDash(level, level', "D" + x, "D" + y);
    CutPrefix("D", x, y);
    NumberThenDash(item, item', TypeName(t), TypeName(t'));
    TypeNameIdentifies(t, t');
  }

  function ComplexityName(index: nat, levelCount: nat): Complexity {
    if index == 0 then Baseline
    else if index == 1 then Single
    else if index == levelCount - 1 && index >= 3 then FullChain
    else Compound
  }

  // ---------------------------------------------------------------- building

  function ConfiguredBudget(plan: Plan): int {
    if plan.maxExperiments.Some? then plan.maxExperiments.value
    else if plan.totalRetryBudget.Some? then plan.totalRetryBudget.value
    else 6
  }

  function Ordered(plan: Plan, order: Option<seq<DisturbanceType>>): seq<DisturbanceType> {
    if order.Some? then order.value else RecommendedTypes(plan.faultType)
  }

  function Budget(plan: Plan, total: Option<int>): int {
    if total.Some? then total.value else ConfiguredBudget(plan)
  }

  ghost function BuildFault(plan: Plan, levelCount: int, budget: int, ordered: seq<DisturbanceType>,
                            library: set<DisturbanceType>): Option<BuildError>
  {
    if levelCount < 1 || levelCount > 8 then Some(LevelCountOutOfRange)
    else if plan.episodeId == "" then Some(NoEpisodeId)
    else if budget < levelCount then Some(BudgetTooSmall)
    else if !Distinct(ordered) then Some(RepeatedType)
    else if !(Elements(ordered) <= library) then Some(UnknownType)
    else None
  }

  lemma PlacesTellIdsApart(level: nat, selected: seq<DisturbanceType>, i: nat, j: nat)
    requires i < j < |selected|
    ensures Chosen(level, selected)[i].id != Chosen(level, selected)[j].id
  {
    var x, y := Chosen(level, selected)[i].id, Chosen(level, selected)[j].id;
    ChosenAt(level, selected, i);
    ChosenAt(level, selected, j);
    if x == y {
      OneIdOnePlace(x, level, i + 1, selected[i], j + 1, selected[j]);
    }
  }

  lemma ChosenAt(level: nat, selected: seq<DisturbanceType>, k: nat)
    requires k < |selected|
    ensures Chosen(level, selected)[k] == Disturbance(DisturbanceId(level, k + 1, selected[k]), selected[k])
  {
  }

  lemma OneIdOnePlace(id: string, level: nat, i: nat, t: DisturbanceType, j: nat, u: DisturbanceType)
    requires id == DisturbanceId(level, i, t) && id == DisturbanceId(level, j, u)
    ensures i == j
  {
    DisturbanceIdIdentifies(level, i, t, level, j, u);
  }

  /** The selected types in order, each with its numbered id. */
  function Chosen(level: nat, selected: seq<DisturbanceType>): (disturbances: seq<Disturbance>)
    ensures |disturbances| == |selected|
  {
    seq(|selected|, k requires 0 <= k < |selected| => Disturbance(DisturbanceId(level, k + 1, selected[k]), selected[k]))
  }

  lemma ChosenNext(level: nat, selected: seq<DisturbanceType>, k: nat, id: string)
    requires k < |selected| && id == DisturbanceId(level, k + 1, selected[k])
    ensures Chosen(level, selected)[..k + 1] == Chosen(level, selected)[..k] + [Disturbance(id, selected[k])]
  {
    var c := Chosen(level, selected);
    assert c[..k + 1] == c[..k] + [c[k]];
  }

  lemma ChosenIdsDiffer(level: nat, selected: seq<DisturbanceType>)
    ensures Distinct(Ids(Chosen(level, selected)))
  {
    var ids := Ids(Chosen(level, selected));
    forall i, j | 0 <= i < j < |ids|
      ensures ids[i] != ids[j]
    {
      PlacesTellIdsApart(level, selected, i, j);
    }
  }

  ghost predicate LevelMatches(level: Level, i: nat, levelCount: nat, ordered: seq<DisturbanceType>, attempts: int) {
    && level.id == LevelId(i + 1)
    && level.complexity == ComplexityName(i, levelCount)
    && level.retryBudget == attempts
    && level.disturbances == Chosen(i + 1, TypesForLevel(i, ordered))
  }

  method BuildLevel(index: nat, levelCount: nat, ordered: seq<DisturbanceType>, retryBudget: int) returns (level: Level)
    requires retryBudget >= 1
    ensures LevelMatches(level, index, levelCount, ordered, retryBudget)
    ensures LevelSound(level)
  {
    var selected := TypesForLevel(index, ordered);
    ghost var chosen := Chosen(index + 1, selected);
    var disturbances: seq<Disturbance> := [];
    for item := 0 to |selected|
      invariant disturbances == chosen[..item]
    {
      var id := DisturbanceId(index + 1, item + 1, selected[item]);
      ChosenNext(index + 1, selected, item, id);
      disturbances := disturbances + [Disturbance(id, selected[item])];
    }
    assert chosen[..|selected|] == chosen;
    ChosenIdsDiffer(index + 1, selected);
    level := Level(LevelId(index + 1), ComplexityName(index, levelCount), disturbances, retryBudget);
  }

  /** `build_multi_level_episode`: refused for the first of five reasons, else exactly the planned
      levels, which its own final validation then always accepts. */
  method BuildEpisode(plan: Plan, levelCount: int, total: Option<int>, order: Option<seq<DisturbanceType>>,
                      library: set<DisturbanceType>) returns (r: Result<Episode, BuildError>)
    ensures r.Err? <==> BuildFault(plan, levelCount, Budget(plan, total), Ordered(plan, order), library).Some?
    ensures r.Err? ==> BuildFault(plan, levelCount, Budget(plan, total), Ordered(plan, order), library) == Some(r.error)
    ensures r.Ok? ==> Sound(r.value) && r.value.id == plan.episodeId && r.value.totalRetryBudget == Budget(plan, total)
    ensures r.Ok? ==> |r.value.levels| == levelCount
    ensures r.Ok? ==> forall i :: 0 <= i < levelCount ==>
              LevelMatches(r.value.levels[i], i, levelCount, Ordered(plan, order), Share(levelCount, Budget(plan, total), i))
  {
    if levelCount < 1 || levelCount > 8 { return Err(LevelCountOutOfRange); }
    if plan.episodeId == "" { return Err(NoEpisodeId); }
    var budget := Budget(plan, total);
    if budget < levelCount { return Err(BudgetTooSmall); }
    var ordered := Ordered(plan, order);
    DistinctByCount(ordered);
    if |Elements(ordered)| != |ordered| { return Err(RepeatedType); }
    if !(Elements(ordered) <= library) { return Err(UnknownType); }
    var levels := BuildLevels(levelCount, budget, ordered);
    var episode := Episode(plan.episodeId, levels, budget);
    var verdict := ValidateEpisode(episode);
    assert verdict.Ok?;
    r := Ok(episode);
  }

  /** The loop over the levels. */
  method BuildLevels(levelCount: nat, budget: int, ordered: seq<DisturbanceType>) returns (levels: seq<Level>)
    requires 1 <= levelCount <= budget
    ensures |levels| == levelCount
    ensures forall i :: 0 <= i < levelCount ==> LevelMatches(levels[i], i, levelCount, ordered, Share(levelCount, budget, i))
    ensures levels[0].disturbances == [] && Contiguous(levels) && NeverLessComplex(levels) && LevelsSound(levels)
    ensures Sum(Budgets(levels)) == budget
  {
    var retryBudgets := AllocateAttempts(levelCount, budget);
    levels := [];
    for index := 0 to levelCount
      invariant |levels| == index
      invariant LevelsSound(levels)
      invariant forall i :: 0 <= i < index ==> LevelMatches(levels[i], i, levelCount, ordered, retryBudgets[i])
    {
      var level := BuildLevel(index, levelCount, ordered, retryBudgets[index]);
      levels := levels + [level];
    }
    assert Budgets(levels) == retryBudgets;
    PlannedLevelsAreSound(levels, levelCount, ordered, retryBudgets);
  }

  lemma PlannedLevelsAreSound(levels: seq<Level>, levelCount: nat, ordered: seq<DisturbanceType>, budgets: seq<int>)
    requires |levels| == |budgets| == levelCount >= 1
    requires forall i :: 0 <= i < levelCount ==> LevelMatches(levels[i], i, levelCount, ordered, budgets[i])
    ensures levels[0].disturbances == [] && Contiguous(levels) && NeverLessComplex(levels)
  {
    forall i, j | 0 <= i < j < |levels|
      ensures |levels[i].disturbances| <= |levels[j].disturbances|
    {
      LevelsOnlyAdd(i, j, ordered);
    }
  }
}
