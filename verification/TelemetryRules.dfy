/** The in-process telemetry rules: disturbances/telemetry_interceptor.py. A rule id is the hash of
    its three identity fields, taken to be injective. */
module TelemetryRules {
  import opened Wrappers
  import opened Iteration

  datatype RuleId = RuleId(runId: string, levelId: string, disturbanceId: string)

  datatype Mode = Http503 | Timeout | OtherMode

  /** A rule as published, and as it is after validation. */
  datatype Rule =
    | FailureSchedule(tool: string, slots: seq<int>, modes: seq<Mode>, timeoutMilliseconds: int)
    | DataGap(tool: string, missingSlots: seq<int>)
    | OtherKind

  datatype RuleError = BadIdentity | BadSlots | BadModes | BadTimeout | BadKind | AlreadyExists

  datatype Event =
    | Registered(id: RuleId)
    | Removed(id: RuleId)
    | Matched(id: RuleId, slot: nat, mode: Mode)
    | Transformed(id: RuleId, removedPoints: nat)

  datatype Active = Active(id: RuleId, rule: Rule, calls: nat)

  datatype Engine = Engine(rules: seq<Active>, events: seq<Event>)

  const EMPTY := Engine([], [])

  // ---------------------------------------------------------------- validation

  ghost predicate Ascending(s: seq<int>) {
    forall i, j :: 0 <= i < j < |s| ==> s[i] < s[j]
  }

  /** Putting one number into an ascending list, unless it is there. */
  function Inserted(s: seq<int>, x: int): seq<int> {
    if s == [] || s[|s| - 1] < x then s + [x]
    else if s[|s| - 1] == x then s
    else Inserted(s[..|s| - 1], x) + [s[|s| - 1]]
  }

  function SortedUnique(s: seq<int>): seq<int> {
    if s == [] then [] else Inserted(SortedUnique(s[..|s| - 1]), s[|s| - 1])
  }

  lemma AscendingTail(init: seq<int>, last: int)
    requires Ascending(init) && forall y :: y in init ==> y < last
    ensures Ascending(init + [last])
  {
    var s := init + [last];
    forall i, j | 0 <= i < j < |s|
      ensures s[i] < s[j]
    {
      assert s[i] in init;
    }
  }

  lemma AscendingInit(s: seq<int>)
    requires Ascending(s) && s != []
    ensures var init, last := s[..|s| - 1], s[|s| - 1]; Ascending(init) && forall y :: y in init ==> y < last
  {
  }

  lemma {:induction false} InsertedSorts(s: seq<int>, x: int)
    requires Ascending(s)
    ensures Ascending(Inserted(s, x))
    ensures forall y :: y in Inserted(s, x) <==> y in s || y == x
  {
    if s == [] {
      assert Inserted(s, x) == [x];
    } else {
      var init, last := s[..|s| - 1], s[|s| - 1];
      assert s == init + [last];
      AscendingInit(s);
      if last < x {
        AscendingTail(s, x);
      } else if x < last {
        InsertedSorts(init, x);
        AscendingTail(Inserted(init, x), last);
      }
    }
  }

  lemma {:induction false} SortedUniqueSorts(s: seq<int>)
    ensures Ascending(SortedUnique(s))
    ensures forall y :: y in SortedUnique(s) <==> y in s
  {
    if s != [] {
      SortedUniqueSorts(s[..|s| - 1]);
      InsertedSorts(SortedUnique(s[..|s| - 1]), s[|s| - 1]);
      assert s == s[..|s| - 1] + [s[|s| - 1]];
    }
  }

  function PositiveUniqueInts(s: seq<int>): Option<seq<int>> {
    if s == [] || SortedUnique(s) == [] || SortedUnique(s)[0] < 1 then None else Some(SortedUnique(s))
  }

  function ValidateRule(rule: Rule): Result<Rule, RuleError> {
    match rule
    case FailureSchedule(tool, slots, modes, timeout) =>
      if PositiveUniqueInts(slots).None? then Err(BadSlots)
      else if modes == [] || OtherMode in modes then Err(BadModes)
      else if timeout < 1 || timeout > 5000 then Err(BadTimeout)
      else Ok(FailureSchedule(tool, PositiveUniqueInts(slots).value, modes, timeout))
    case DataGap(tool, missing) =>
      if PositiveUniqueInts(missing).None? then Err(BadSlots) else Ok(DataGap(tool, PositiveUniqueInts(missing).value))
    case OtherKind => Err(BadKind)
  }

  /** A validated schedule: ascending positive call numbers and something to answer with. */
  ghost predicate WellFormed(rule: Rule) {
    match rule
    case FailureSchedule(_, slots, modes, _) => Ascending(slots) && (forall s :: s in slots ==> s >= 1) && modes != []
    case DataGap(_, missing) => Ascending(missing) && forall s :: s in missing ==> s >= 1
    case OtherKind => false
  }

  lemma PositiveIntsMean(s: seq<int>)
    ensures PositiveUniqueInts(s).Some? <==> s != [] && forall y :: y in s ==> y >= 1
    ensures PositiveUniqueInts(s).Some? ==> Ascending(PositiveUniqueInts(s).value)
    ensures PositiveUniqueInts(s).Some? ==> forall y :: y in PositiveUniqueInts(s).value <==> y in s
  {
    SortedUniqueSorts(s);
    var sorted := SortedUnique(s);
    if s != [] {
      var x := s[0];
      assert x in s;
      assert x in sorted;
      assert forall k :: 0 <= k < |sorted| ==> sorted[0] <= sorted[k];
      assert sorted[0] in s;
    }
  }

  /** Validation changes no call number and refuses exactly the rules that could not be run. */
  lemma ValidationMeans(rule: Rule)
    ensures ValidateRule(rule).Ok? ==> WellFormed(ValidateRule(rule).value) && ValidateRule(rule).value.tool == rule.tool
    ensures ValidateRule(rule).Ok? && rule.FailureSchedule? ==>
              forall s :: s in ValidateRule(rule).value.slots <==> s in rule.slots
    ensures rule.FailureSchedule? ==>
              (ValidateRule(rule).Ok? <==> rule.slots != [] && (forall s :: s in rule.slots ==> s >= 1)
                                           && rule.modes != [] && OtherMode !in rule.modes && 1 <= rule.timeoutMilliseconds <= 5000)
    ensures ValidateRule(rule).Ok? && rule.DataGap? ==>
              forall s :: s in ValidateRule(rule).value.missingSlots <==> s in rule.missingSlots
    ensures rule.DataGap? ==> (ValidateRule(rule).Ok? <==> rule.missingSlots != [] && forall s :: s in rule.missingSlots ==> s >= 1)
    ensures rule.OtherKind? ==> ValidateRule(rule) == Err(BadKind)
  {
    match rule
    case FailureSchedule(_, slots, _, _) => PositiveIntsMean(slots);
    case DataGap(_, missing) => PositiveIntsMean(missing);
    case OtherKind =>
  }

  // ---------------------------------------------------------------- the engine's operations

  function IndexOf(rules: seq<Active>, id: RuleId): (k: int)
    ensures -1 <= k < |rules|
    ensures k >= 0 ==> rules[k].id == id
    ensures k < 0 ==> forall i :: 0 <= i < |rules| ==> rules[i].id != id
  {
    if rules == [] then -1
    else if rules[|rules| - 1].id == id then |rules| - 1
    else IndexOf(rules[..|rules| - 1], id)
  }

  predicate Complete(id: RuleId) { id.runId != "" && id.levelId != "" && id.disturbanceId != "" }

  function RegisterFault(e: Engine, id: RuleId, rule: Rule): Option<RuleError> {
    if ValidateRule(rule).Err? then Some(ValidateRule(rule).error)
    else if !Complete(id) then Some(BadIdentity)
    else if IndexOf(e.rules, id) >= 0 then Some(AlreadyExists)
    else None
  }

  function Register(e: Engine, id: RuleId, rule: Rule): Engine {
    if RegisterFault(e, id, rule).Some? then e
    else Engine(e.rules + [Active(id, ValidateRule(rule).value, 0)], e.events + [Registered(id)])
  }

  function Remove(e: Engine, id: RuleId): Engine {
    var k := IndexOf(e.rules, id);
    if k < 0 then e else Engine(e.rules[..k] + e.rules[k + 1..], e.events + [Removed(id)])
  }

  predicate Scheduled(a: Active, tool: string) { a.rule.FailureSchedule? && a.rule.tool == tool }

  function PositionIn(s: seq<int>, x: int): nat {
    if s == [] || s[0] == x then 0 else 1 + PositionIn(s[1..], x)
  }

  predicate Due(a: Active, tool: string) { Scheduled(a, tool) && a.calls + 1 in a.rule.slots }

  function ModeAt(a: Active): Mode {
    if a.rule.FailureSchedule? && a.rule.modes != [] then
      a.rule.modes[PositionIn(a.rule.slots, a.calls + 1) % |a.rule.modes|]
    else Timeout
  }

  function Counted(a: Active, tool: string): Active {
    if Scheduled(a, tool) then a.(calls := a.calls + 1) else a
  }

  /** The first n rules have seen one more call of the tool. */
  function CountedRules(rules: seq<Active>, tool: string, n: nat): (counted: seq<Active>)
    requires n <= |rules|
    ensures |counted| == |rules|
    ensures forall k :: 0 <= k < |rules| ==> counted[k] == if k < n then Counted(rules[k], tool) else rules[k]
  {
    seq(|rules|, k requires 0 <= k < |rules| => if k < n then Counted(rules[k], tool) else rules[k])
  }

  function MatchEvents(rules: seq<Active>, tool: string, n: nat): (events: seq<Event>)
    requires n <= |rules|
    ensures forall k :: 0 <= k < |events| ==> events[k].Matched?
  {
    if n == 0 then []
    else
      var a := rules[n - 1];
      if Due(a, tool) then MatchEvents(rules, tool, n - 1) + [Matched(a.id, a.calls + 1, ModeAt(a))]
      else MatchEvents(rules, tool, n - 1)
  }

  function BeforeTool(e: Engine, tool: string): Engine {
    Engine(CountedRules(e.rules, tool, |e.rules|), e.events + MatchEvents(e.rules, tool, |e.rules|))
  }

  // ---------------------------------------------------------------- responses with gaps

  /** A series of points, or something in the result list that is not one. */
  datatype Series<V> = Points(values: seq<V>) | NotASeries

  /** The points left when those at the missing 1-based positions are dropped. */
  function Kept<V>(values: seq<V>, missing: seq<int>): seq<V> {
    if values == [] then []
    else Kept(values[..|values| - 1], missing) + if |values| in missing then [] else [values[|values| - 1]]
  }

  function Gapped<V>(series: Series<V>, missing: seq<int>): Series<V> {
    if series.Points? then Points(Kept(series.values, missing)) else series
  }

  function GappedAll<V>(result: seq<Series<V>>, missing: seq<int>): (gapped: seq<Series<V>>)
    ensures |gapped| == |result|
    ensures forall k :: 0 <= k < |result| ==> gapped[k] == Gapped(result[k], missing)
  {
    if result == [] then [] else GappedAll(result[..|result| - 1], missing) + [Gapped(result[|result| - 1], missing)]
  }

  function PointCount<V>(result: seq<Series<V>>): nat {
    if result == [] then 0
    else
      var last := result[|result| - 1];
      PointCount(result[..|result| - 1]) + if last.Points? then |last.values| else 0
  }

  lemma {:induction false} KeptIsShorter<V>(values: seq<V>, missing: seq<int>)
    ensures |Kept(values, missing)| <= |values|
  {
    if values != [] {
      KeptIsShorter(values[..|values| - 1], missing);
    }
  }

  function Within(missing: seq<int>, n: nat): set<int> { set m | m in missing && 1 <= m <= n }

  /** Exactly the scheduled positions that exist are dropped, however often they are listed. */
  lemma {:induction false} DropsWhatIsScheduled<V>(values: seq<V>, missing: seq<int>)
    ensures |values| == |Kept(values, missing)| + |Within(missing, |values|)|
  {
    var n := |values|;
    if n == 0 {
      assert Within(missing, 0) == {};
    } else {
      DropsWhatIsScheduled(values[..n - 1], missing);
      assert Within(missing, n) == Within(missing, n - 1) + if n in missing then {n} else {};
    }
  }

  /** A series is left alone exactly when nothing scheduled is in it. */
  lemma {:induction false} NothingScheduledNothingDropped<V>(values: seq<V>, missing: seq<int>)
    ensures Kept(values, missing) == values <==> Within(missing, |values|) == {}
  {
    DropsWhatIsScheduled(values, missing);
    if Within(missing, |values|) == {} {
      assert forall m :: m in missing && 1 <= m <= |values| ==> m in Within(missing, |values|);
      KeepsAll(values, missing);
    }
  }

  lemma {:induction false} KeepsAll<V>(values: seq<V>, missing: seq<int>)
    requires forall m :: m in missing ==> !(1 <= m <= |values|)
    ensures Kept(values, missing) == values
  {
    if values != [] {
      KeepsAll(values[..|values| - 1], missing);
    }
  }

  /** The response when the first k series have been edited. */
  function Edited<V>(result: seq<Series<V>>, missing: seq<int>, k: nat): (edited: seq<Series<V>>)
    requires k <= |result|
    ensures |edited| == |result|
  {
    GappedAll(result[..k], missing) + result[k..]
  }

  lemma {:induction false} CountSplits<V>(a: seq<Series<V>>, b: seq<Series<V>>)
    ensures PointCount(a + b) == PointCount(a) + PointCount(b)
  {
    if b == [] {
      assert a + b == a;
    } else {
      assert (a + b)[..|a + b| - 1] == a + b[..|b| - 1];
      CountSplits(a, b[..|b| - 1]);
    }
  }

  lemma OneMoreEdited<V>(result: seq<Series<V>>, missing: seq<int>, k: nat)
    requires k < |result|
    ensures Edited(result, missing, k + 1) == Edited(result, missing, k)[k := Gapped(result[k], missing)]
    ensures Edited(result, missing, k)[k] == result[k]
    ensures PointCount(Edited(result, missing, k + 1)) - PointCount(Edited(result, missing, k))
            == PointCount([Gapped(result[k], missing)]) - PointCount([result[k]])
  {
    var done, rest := GappedAll(result[..k], missing), result[k + 1..];
    assert result[..k + 1][..k] == result[..k];
    assert Edited(result, missing, k) == done + [result[k]] + rest;
    assert Edited(result, missing, k + 1) == done + [Gapped(result[k], missing)] + rest;
    CountSplits(done + [result[k]], rest);
    CountSplits(done, [result[k]]);
    CountSplits(done + [Gapped(result[k], missing)], rest);
    CountSplits(done, [Gapped(result[k], missing)]);
  }

  /** `_remove_metric_slots`: edits each series and reports how many points went. */
  method RemoveMetricSlots<V>(result: seq<Series<V>>, missing: seq<int>) returns (edited: seq<Series<V>>, removed: nat)
    ensures edited == GappedAll(result, missing)
    ensures removed == PointCount(result) - PointCount(edited)
  {
    edited := result;
    removed := 0;
    assert Edited(result, missing, 0) == result;
    for k := 0 to |result|
      invariant edited == Edited(result, missing, k)
      invariant removed == PointCount(result) - PointCount(edited)
    {
      OneMoreEdited(result, missing, k);
      var series := edited[k];
      if series.Points? {
        var kept := Kept(series.values, missing);
        KeptIsShorter(series.values, missing);
        assert PointCount([Points(kept)]) == |kept| && PointCount([series]) == |series.values|;
        removed := removed + |series.values| - |kept|;
        edited := edited[k := Points(kept)];
      } else {
        assert edited[k := series] == edited;
      }
    }
    assert result[..|result|] == result && result[|result|..] == [];
  }

  predicate Gaps(a: Active, tool: string) { a.rule.DataGap? && a.rule.tool == tool }

  /** The response once the first n rules have taken their points out of it, one after the other. */
  function GappedBy<V>(rules: seq<Active>, tool: string, result: seq<Series<V>>, n: nat): seq<Series<V>>
    requires n <= |rules|
  {
    if n == 0 then result
    else if Gaps(rules[n - 1], tool) then GappedAll(GappedBy(rules, tool, result, n - 1), rules[n - 1].rule.missingSlots)
    else GappedBy(rules, tool, result, n - 1)
  }

  function Dropped<V>(before: seq<Series<V>>, after: seq<Series<V>>): nat {
    if PointCount(before) >= PointCount(after) then PointCount(before) - PointCount(after) else 0
  }

  function GapEvents<V>(rules: seq<Active>, tool: string, result: seq<Series<V>>, n: nat): (events: seq<Event>)
    requires n <= |rules|
    ensures forall k :: 0 <= k < |events| ==> events[k].Transformed?
  {
    if n == 0 then []
    else if Gaps(rules[n - 1], tool) then
      GapEvents(rules, tool, result, n - 1)
      + [Transformed(rules[n - 1].id, Dropped(GappedBy(rules, tool, result, n - 1), GappedBy(rules, tool, result, n)))]
    else GapEvents(rules, tool, result, n - 1)
  }

  // ---------------------------------------------------------------- the engine

  class TelemetryDisturbanceRuleEngine {
    var rules: seq<Active>
    var events: seq<Event>

    ghost function Snapshot(): Engine reads this { Engine(rules, events) }

    constructor ()
      ensures Snapshot() == EMPTY
    {
      rules, events := [], [];
    }

    method RegisterRule(id: RuleId, rule: Rule) returns (fault: Option<RuleError>)
      modifies this
      ensures fault == RegisterFault(old(Snapshot()), id, rule)
      ensures Snapshot() == Register(old(Snapshot()), id, rule)
    {
      var normalized := ValidateRule(rule);
      if normalized.Err? { return Some(normalized.error); }
      if id.runId == "" || id.levelId == "" || id.disturbanceId == "" { return Some(BadIdentity); }
      if IndexOf(rules, id) >= 0 { return Some(AlreadyExists); }
      rules := rules + [Active(id, normalized.value, 0)];
      events := events + [Registered(id)];
      fault := None;
    }

    method RemoveRule(id: RuleId) returns (removed: bool)
      modifies this
      ensures removed <==> IndexOf(old(rules), id) >= 0
      ensures Snapshot() == Remove(old(Snapshot()), id)
    {
      var k := IndexOf(rules, id);
      if k < 0 { return false; }
      rules := rules[..k] + rules[k + 1..];
      events := events + [Removed(id)];
      removed := true;
    }

    /** Counts the call against every schedule of the tool; the earliest registered match decides how
        the call fails, if it fails. */
    method BeforeCall(tool: string) returns (failure: Option<(RuleId, Mode)>)
      modifies this
      ensures Snapshot() == BeforeTool(old(Snapshot()), tool)
      ensures failure.None? <==> forall k :: 0 <= k < |old(rules)| ==> !Due(old(rules)[k], tool)
      ensures failure.Some? ==> exists k :: 0 <= k < |old(rules)| && FirstDue(old(rules), tool, k)
                                         && failure.value == (old(rules)[k].id, ModeAt(old(rules)[k]))
    {
      failure := None;
      ghost var first := -1;
      for k := 0 to |rules|
        invariant rules == CountedRules(old(rules), tool, k)
        invariant events == old(events) + MatchEvents(old(rules), tool, k)
        invariant failure.None? ==> forall i :: 0 <= i < k ==> !Due(old(rules)[i], tool)
        invariant failure.Some? ==> 0 <= first < k && FirstDue(old(rules), tool, first)
        invariant failure.Some? ==> failure.value == (old(rules)[first].id, ModeAt(old(rules)[first]))
      {
        var a := rules[k];
        assert a == old(rules)[k];
        if Scheduled(a, tool) {
          rules := rules[k := a.(calls := a.calls + 1)];
          if a.calls + 1 in a.rule.slots {
            events := events + [Matched(a.id, a.calls + 1, ModeAt(a))];
            if failure.None? {
              first := k;
              failure := Some((a.id, ModeAt(a)));
            }
          }
        }
        assert rules == CountedRules(old(rules), tool, k + 1);
      }
    }

    method AfterCall<V>(tool: string, response: seq<Series<V>>) returns (result: seq<Series<V>>)
      modifies this`events
      ensures events == old(events) + GapEvents(rules, tool, response, |rules|)
      ensures result == GappedBy(rules, tool, response, |rules|)
    {
      result := response;
      for k := 0 to |rules|
        invariant events == old(events) + GapEvents(rules, tool, response, k)
        invariant result == GappedBy(rules, tool, response, k)
      {
        var a := rules[k];
        if a.rule.DataGap? && a.rule.tool == tool {
          var edited, removed := RemoveMetricSlots(result, a.rule.missingSlots);
          assert removed == Dropped(result, edited);
          result := edited;
          events := events + [Transformed(a.id, removed)];
        }
      }
    }
  }

  ghost predicate FirstDue(rules: seq<Active>, tool: string, k: int) {
    0 <= k < |rules| && Due(rules[k], tool) && forall i :: 0 <= i < k ==> !Due(rules[i], tool)
  }

  // ---------------------------------------------------------------- the schedule

  /** What happens to the engine, in order; a gap leaves its own events. */
  datatype Op = Registering(id: RuleId, rule: Rule) | Removing(id: RuleId) | Calling(tool: string) | Responding(gaps: seq<Event>)

  function Take(e: Engine, op: Op): Engine {
    match op
    case Registering(id, rule) => Register(e, id, rule)
    case Removing(id) => Remove(e, id)
    case Calling(tool) => BeforeTool(e, tool)
    case Responding(gaps) => e.(events := e.events + gaps)
  }

  ghost predicate OnlyGaps(op: Op) {
    op.Responding? ==> forall k :: 0 <= k < |op.gaps| ==> op.gaps[k].Transformed?
  }

  /** The call numbers a rule has matched since it was last registered. */
  function MatchedSlots(events: seq<Event>, id: RuleId): seq<int> {
    if events == [] then []
    else
      var last := events[|events| - 1];
      if last == Registered(id) then []
      else if last.Matched? && last.id == id then MatchedSlots(events[..|events| - 1], id) + [last.slot]
      else MatchedSlots(events[..|events| - 1], id)
  }

  function UpTo(slots: seq<int>, n: nat): seq<int> {
    if slots == [] then []
    else if slots[|slots| - 1] <= n then UpTo(slots[..|slots| - 1], n) + [slots[|slots| - 1]]
    else UpTo(slots[..|slots| - 1], n)
  }

  ghost predicate DistinctRules(rules: seq<Active>) {
    forall i, j :: 0 <= i < j < |rules| ==> rules[i].id != rules[j].id
  }

  ghost predicate OnSchedule(a: Active, events: seq<Event>) {
    && WellFormed(a.rule)
    && MatchedSlots(events, a.id) == if a.rule.FailureSchedule? then UpTo(a.rule.slots, a.calls) else []
  }

  ghost predicate AllOnSchedule(e: Engine) {
    DistinctRules(e.rules) && forall k :: 0 <= k < |e.rules| ==> OnSchedule(e.rules[k], e.events)
  }

  lemma {:induction false} UpToNext(slots: seq<int>, n: nat)
    requires Ascending(slots)
    ensures UpTo(slots, n + 1) == if n + 1 in slots then UpTo(slots, n) + [n + 1] else UpTo(slots, n)
  {
    if slots != [] {
      var init, last := slots[..|slots| - 1], slots[|slots| - 1];
      UpToNext(init, n);
      assert forall k :: 0 <= k < |init| ==> init[k] == slots[k] < last;
      assert n + 1 in slots <==> n + 1 in init || n + 1 == last;
      assert last <= n + 1 ==> n + 1 !in init;
    }
  }

  lemma {:induction false} UpToNone(slots: seq<int>)
    requires forall s :: s in slots ==> s >= 1
    ensures UpTo(slots, 0) == []
  {
    if slots != [] {
      var init := slots[..|slots| - 1];
      forall s | s in init
        ensures s >= 1
      {
        assert s in slots;
      }
      UpToNone(init);
      assert slots[|slots| - 1] in slots;
    }
  }

  lemma MatchedAfter(events: seq<Event>, event: Event, id: RuleId)
    ensures MatchedSlots(events + [event], id) ==
            if event == Registered(id) then []
            else if event.Matched? && event.id == id then MatchedSlots(events, id) + [event.slot]
            else MatchedSlots(events, id)
  {
    assert (events + [event])[..|events|] == events;
  }

  /** Events of a kind that says nothing about a rule's matches leave them. */
  lemma {:induction false} MatchedUnmoved(events: seq<Event>, more: seq<Event>, id: RuleId)
    requires forall k :: 0 <= k < |more| ==> more[k].id != id || more[k].Transformed?
    ensures MatchedSlots(events + more, id) == MatchedSlots(events, id)
  {
    if more == [] {
      assert events + more == events;
    } else {
      var init, last := more[..|more| - 1], more[|more| - 1];
      MatchedUnmoved(events, init, id);
      assert events + more == events + init + [last];
      MatchedAfter(events + init, last, id);
    }
  }

  /** The matches of one rule among events that register nothing. */
  function SlotsOf(events: seq<Event>, id: RuleId): seq<int> {
    if events == [] then []
    else
      var last := events[|events| - 1];
      if last.Matched? && last.id == id then SlotsOf(events[..|events| - 1], id) + [last.slot]
      else SlotsOf(events[..|events| - 1], id)
  }

  lemma {:induction false} MatchedTogether(events: seq<Event>, more: seq<Event>, id: RuleId)
    requires forall k :: 0 <= k < |more| ==> more[k].Matched?
    ensures MatchedSlots(events + more, id) == MatchedSlots(events, id) + SlotsOf(more, id)
  {
    if more == [] {
      assert events + more == events;
    } else {
      var init, last := more[..|more| - 1], more[|more| - 1];
      MatchedTogether(events, init, id);
      assert events + more == events + init + [last];
      MatchedAfter(events + init, last, id);
    }
  }

  ghost predicate OnlyAt(rules: seq<Active>, k: nat, id: RuleId) {
    k < |rules| && rules[k].id == id && forall i :: 0 <= i < |rules| && i != k ==> rules[i].id != id
  }

  lemma {:induction false} OthersMatchNothing(rules: seq<Active>, tool: string, n: nat, id: RuleId)
    requires n <= |rules| && forall i :: 0 <= i < n ==> rules[i].id != id
    ensures SlotsOf(MatchEvents(rules, tool, n), id) == []
  {
    if n > 0 {
      OthersMatchNothing(rules, tool, n - 1, id);
      NextMatch(rules, tool, n, id);
    }
  }

  lemma NextMatch(rules: seq<Active>, tool: string, n: nat, id: RuleId)
    requires 0 < n <= |rules|
    ensures SlotsOf(MatchEvents(rules, tool, n), id) ==
            if Due(rules[n - 1], tool) && rules[n - 1].id == id
            then SlotsOf(MatchEvents(rules, tool, n - 1), id) + [rules[n - 1].calls + 1]
            else SlotsOf(MatchEvents(rules, tool, n - 1), id)
  {
    var a := rules[n - 1];
    if Due(a, tool) {
      SlotsAfter(MatchEvents(rules, tool, n - 1), Matched(a.id, a.calls + 1, ModeAt(a)), id);
    }
  }

  /** A call's matches hold the number of the call once for each rule it is due for. */
  lemma {:induction false} CallMatches(rules: seq<Active>, tool: string, n: nat, k: nat, id: RuleId)
    requires k < n <= |rules| && OnlyAt(rules, k, id)
    ensures SlotsOf(MatchEvents(rules, tool, n), id) == if Due(rules[k], tool) then [rules[k].calls + 1] else []
  {
    NextMatch(rules, tool, n, id);
    if n - 1 == k {
      OthersMatchNothing(rules, tool, k, id);
    } else {
      CallMatches(rules, tool, n - 1, k, id);
    }
  }

  lemma SlotsAfter(events: seq<Event>, event: Event, id: RuleId)
    requires event.Matched?
    ensures SlotsOf(events + [event], id) == if event.id == id then SlotsOf(events, id) + [event.slot] else SlotsOf(events, id)
  {
    assert (events + [event])[..|events|] == events;
  }

  lemma CallKeepsSchedule(e: Engine, tool: string)
    requires AllOnSchedule(e)
    ensures AllOnSchedule(BeforeTool(e, tool))
  {
    var e' := BeforeTool(e, tool);
    assert forall k :: 0 <= k < |e'.rules| ==> e'.rules[k].id == e.rules[k].id;
    forall k | 0 <= k < |e'.rules|
      ensures OnSchedule(e'.rules[k], e'.events)
    {
      CallKeepsOne(e.rules, e.events, tool, k);
    }
  }

  lemma CallKeepsOne(rules: seq<Active>, events: seq<Event>, tool: string, k: nat)
    requires DistinctRules(rules) && k < |rules| && OnSchedule(rules[k], events)
    ensures OnSchedule(Counted(rules[k], tool), events + MatchEvents(rules, tool, |rules|))
  {
    CallMatches(rules, tool, |rules|, k, rules[k].id);
    MatchedTogether(events, MatchEvents(rules, tool, |rules|), rules[k].id);
    CountedOnSchedule(rules[k], events, events + MatchEvents(rules, tool, |rules|), tool);
  }

  lemma CountedOnSchedule(a: Active, events: seq<Event>, events': seq<Event>, tool: string)
    requires OnSchedule(a, events)
    requires MatchedSlots(events', a.id) == if Due(a, tool) then MatchedSlots(events, a.id) + [a.calls + 1] else MatchedSlots(events, a.id)
    ensures OnSchedule(Counted(a, tool), events')
  {
    if Scheduled(a, tool) {
      UpToNext(a.rule.slots, a.calls);
    }
  }

  lemma RegisterKeepsSchedule(e: Engine, id: RuleId, rule: Rule)
    requires AllOnSchedule(e)
    ensures AllOnSchedule(Register(e, id, rule))
  {
    if RegisterFault(e, id, rule).None? {
      var e' := Register(e, id, rule);
      ValidationMeans(rule);
      forall k | 0 <= k < |e'.rules|
        ensures OnSchedule(e'.rules[k], e'.events)
      {
        MatchedAfter(e.events, Registered(id), e'.rules[k].id);
        if k < |e.rules| {
          assert OnSchedule(e.rules[k], e.events);
        } else if e'.rules[k].rule.FailureSchedule? {
          UpToNone(e'.rules[k].rule.slots);
        }
      }
    }
  }

  lemma RemoveKeepsSchedule(e: Engine, id: RuleId)
    requires AllOnSchedule(e)
    ensures AllOnSchedule(Remove(e, id))
  {
    var at := IndexOf(e.rules, id);
    if at >= 0 {
      var e' := Remove(e, id);
      assert forall k :: 0 <= k < |e'.rules| ==> e'.rules[k] == e.rules[if k < at then k else k + 1];
      forall k | 0 <= k < |e'.rules|
        ensures OnSchedule(e'.rules[k], e'.events)
      {
        RemovalKeepsOne(e'.rules[k], e.events, id);
      }
    }
  }

  lemma RemovalKeepsOne(a: Active, events: seq<Event>, id: RuleId)
    requires OnSchedule(a, events)
    ensures OnSchedule(a, events + [Removed(id)])
  {
    MatchedAfter(events, Removed(id), a.id);
  }

  lemma TakeKeepsSchedule(e: Engine, op: Op)
    requires AllOnSchedule(e) && OnlyGaps(op)
    ensures AllOnSchedule(Take(e, op))
  {
    match op
    case Registering(id, rule) => RegisterKeepsSchedule(e, id, rule);
    case Removing(id) => RemoveKeepsSchedule(e, id);
    case Calling(tool) => CallKeepsSchedule(e, tool);
    case Responding(gaps) =>
      forall k | 0 <= k < |e.rules|
        ensures OnSchedule(e.rules[k], e.events + gaps)
      {
        assert OnSchedule(e.rules[k], e.events);
        MatchedUnmoved(e.events, gaps, e.rules[k].id);
      }
  }

  /** How often the rule's tool was called since the rule was last registered. */
  function CallsSince(ops: seq<Op>, id: RuleId, tool: string): nat {
    if ops == [] then 0
    else
      var init, last := ops[..|ops| - 1], ops[|ops| - 1];
      if last.Registering? && last.id == id && RegisterFault(Run(Take, EMPTY, init), id, last.rule).None? then 0
      else CallsSince(init, id, tool) + if last == Calling(tool) then 1 else 0
  }

  ghost predicate Counts(e: Engine, ops: seq<Op>) {
    forall k :: 0 <= k < |e.rules| && e.rules[k].rule.FailureSchedule? ==>
      e.rules[k].calls == CallsSince(ops, e.rules[k].id, e.rules[k].rule.tool)
  }

  lemma {:induction false} EveryRunIsOnSchedule(ops: seq<Op>)
    requires forall k :: 0 <= k < |ops| ==> OnlyGaps(ops[k])
    ensures AllOnSchedule(Run(Take, EMPTY, ops)) && Counts(Run(Take, EMPTY, ops), ops)
  {
    if ops != [] {
      var init, last := ops[..|ops| - 1], ops[|ops| - 1];
      EveryRunIsOnSchedule(init);
      var e := Run(Take, EMPTY, init);
      assert OnlyGaps(last);
      TakeKeepsSchedule(e, last);
      TakeCounts(e, init, ops, last);
    }
  }

  lemma TakeCounts(e: Engine, init: seq<Op>, ops: seq<Op>, op: Op)
    requires ops != [] && init == ops[..|ops| - 1] && op == ops[|ops| - 1]
    requires e == Run(Take, EMPTY, init) && Counts(e, init) && DistinctRules(e.rules)
    ensures Counts(Take(e, op), ops)
  {
    match op
    case Registering(id, rule) => RegisterCounts(e, init, ops, id, rule);
    case Removing(id) => RemoveCounts(e, init, ops, id);
    case Calling(tool) => CallCounts(e, init, ops, tool);
    case Responding(_) => NoCallCounts(init, ops);
  }

  /** An operation that neither registers nor calls adds to no count. */
  lemma NoCallCounts(init: seq<Op>, ops: seq<Op>)
    requires ops != [] && init == ops[..|ops| - 1] && !ops[|ops| - 1].Registering? && !ops[|ops| - 1].Calling?
    ensures forall id, tool :: CallsSince(ops, id, tool) == CallsSince(init, id, tool)
  {
  }

  lemma RegisterCounts(e: Engine, init: seq<Op>, ops: seq<Op>, id: RuleId, rule: Rule)
    requires ops != [] && init == ops[..|ops| - 1] && Registering(id, rule) == ops[|ops| - 1]
    requires e == Run(Take, EMPTY, init) && Counts(e, init)
    ensures Counts(Register(e, id, rule), ops)
  {
    var e' := Register(e, id, rule);
    forall k | 0 <= k < |e'.rules| && e'.rules[k].rule.FailureSchedule?
      ensures e'.rules[k].calls == CallsSince(ops, e'.rules[k].id, e'.rules[k].rule.tool)
    {
      if k < |e.rules| {
        assert e'.rules[k] == e.rules[k];
        assert RegisterFault(e, id, rule).None? ==> e.rules[k].id != id;
      }
    }
  }

  lemma RemoveCounts(e: Engine, init: seq<Op>, ops: seq<Op>, id: RuleId)
    requires ops != [] && init == ops[..|ops| - 1] && Removing(id) == ops[|ops| - 1] && Counts(e, init)
    ensures Counts(Remove(e, id), ops)
  {
    NoCallCounts(init, ops);
    var e', at := Remove(e, id), IndexOf(e.rules, id);
    forall k | 0 <= k < |e'.rules|
      ensures e'.rules[k] == e.rules[if at < 0 || k < at then k else k + 1]
    {
    }
  }

  lemma CallCounts(e: Engine, init: seq<Op>, ops: seq<Op>, tool: string)
    requires ops != [] && init == ops[..|ops| - 1] && Calling(tool) == ops[|ops| - 1] && Counts(e, init)
    ensures Counts(BeforeTool(e, tool), ops)
  {
    var e' := BeforeTool(e, tool);
    forall k | 0 <= k < |e'.rules| && e'.rules[k].rule.FailureSchedule?
      ensures e'.rules[k].calls == CallsSince(ops, e'.rules[k].id, e'.rules[k].rule.tool)
    {
      assert e'.rules[k] == Counted(e.rules[k], tool);
    }
  }

  /** Over any run of the engine, a failure rule has matched, since it was registered, exactly the
      scheduled call numbers up to the number of calls of its tool, each once and in order. */
  lemma FailuresFollowTheSchedule(ops: seq<Op>, k: nat)
    requires forall i :: 0 <= i < |ops| ==> OnlyGaps(ops[i])
    requires k < |Run(Take, EMPTY, ops).rules| && Run(Take, EMPTY, ops).rules[k].rule.FailureSchedule?
    ensures var e := Run(Take, EMPTY, ops);
            var a := e.rules[k];
            MatchedSlots(e.events, a.id) == UpTo(a.rule.slots, CallsSince(ops, a.id, a.rule.tool))
    ensures var e := Run(Take, EMPTY, ops);
            var a := e.rules[k];
            forall s :: s in MatchedSlots(e.events, a.id) <==> s in a.rule.slots && s <= CallsSince(ops, a.id, a.rule.tool)
  {
    EveryRunIsOnSchedule(ops);
    var e := Run(Take, EMPTY, ops);
    var a := e.rules[k];
    assert OnSchedule(a, e.events);
    forall s
      ensures s in UpTo(a.rule.slots, a.calls) <==> s in a.rule.slots && s <= a.calls
    {
      UpToMeans(a.rule.slots, a.calls, s);
    }
  }

  /** `UpTo` is what its name says. */
  lemma {:induction false} UpToMeans(slots: seq<int>, n: nat, s: int)
    ensures s in UpTo(slots, n) <==> s in slots && s <= n
  {
    if slots != [] {
      UpToMeans(slots[..|slots| - 1], n, s);
      assert slots == slots[..|slots| - 1] + [slots[|slots| - 1]];
    }
  }
}
