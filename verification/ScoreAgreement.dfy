/** Why the verdict of progression/orchestrator.py and the score of scoring/calculator.py agree. */
module ScoreAgreement {
  import opened Wrappers
  import opened Sequences
  import opened Labels
  import opened Builder
  import opened Progression
  import opened Orchestrator
  import Scoring

  ghost predicate PassesLevel(entry: Completed, id: string) {
    entry.primary == Passed && entry.trial.levelId == id
  }

  ghost predicate PassedIn(history: seq<Completed>, id: string) {
    exists k :: 0 <= k < |history| && PassesLevel(history[k], id)
  }

  /** A level's status says whether the history holds its pass. */
  ghost predicate Witnessed(c: Config, s: State) {
    forall i :: 0 <= i < c.Count() ==> (StatusOf(c, s, i) == PASSED <==> PassedIn(s.history, Id(c, i)))
  }

  ghost predicate PassedOnce(history: seq<Completed>) {
    forall j, k :: 0 <= j < k < |history| && history[j].primary == Passed ==> !PassesLevel(history[k], history[j].trial.levelId)
  }

  lemma PassedInAdded(before: seq<Completed>, after: seq<Completed>, id: string)
    requires |after| == |before| + 1 && forall k :: 0 <= k < |before| ==> after[k] == before[k]
    ensures PassedIn(after, id) <==> PassedIn(before, id) || PassesLevel(after[|before|], id)
  {
    if PassedIn(before, id) {
      var k :| 0 <= k < |before| && PassesLevel(before[k], id);
      assert PassesLevel(after[k], id);
    }
  }

  lemma PassedOnceAdded(before: seq<Completed>, after: seq<Completed>)
    requires |after| == |before| + 1 && forall k :: 0 <= k < |before| ==> after[k] == before[k]
    requires PassedOnce(before) && !PassedIn(before, after[|before|].trial.levelId)
    ensures PassedOnce(after)
  {
    var last := after[|before|];
    assert forall k :: 0 <= k < |before| ==> !PassesLevel(before[k], last.trial.levelId);
  }

  lemma CloseIsWitnessed(c: Config, s: State, s': State, primary: Primary)
    requires Playable(c) && InRange(c, s) && Witnessed(c, s) && PassedOnce(s.history) && StatusOf(c, s, s.index) != PASSED
    requires |s'.history| == |s.history| + 1 && forall k :: 0 <= k < |s.history| ==> s'.history[k] == s.history[k]
    requires s'.history[|s.history|].primary == primary && s'.history[|s.history|].trial.levelId == Id(c, s.index)
    requires StatusOf(c, s', s.index) == PASSED <==> primary == Passed
    requires forall i :: 0 <= i < c.Count() && i != s.index ==> StatusOf(c, s', i) == StatusOf(c, s, i)
    ensures Witnessed(c, s') && PassedOnce(s'.history)
  {
    assert !PassedIn(s.history, Id(c, s.index));
    PassedOnceAdded(s.history, s'.history);
    forall i | 0 <= i < c.Count()
      ensures StatusOf(c, s', i) == PASSED <==> PassedIn(s'.history, Id(c, i))
    {
      PassedInAdded(s.history, s'.history, Id(c, i));
      assert i != s.index ==> Id(c, i) != Id(c, s.index);
    }
  }

  lemma RecordIsWitnessed(c: Config, s: State, trialId: string, primary: Primary, failure: Option<string>, resultRef: string)
    requires Playable(c) && Shaped(c, s) && Coherent(c, s) && Witnessed(c, s) && PassedOnce(s.history)
    requires Closes(s, trialId, primary)
    ensures var s' := Recorded(c, s, trialId, primary, failure, resultRef).0; Witnessed(c, s') && PassedOnce(s'.history)
  {
    var s' := Recorded(c, s, trialId, primary, failure, resultRef).0;
    var closed := Closed(s, primary, failure, resultRef);
    RecordedFromClosed(c, s, trialId, primary, failure, resultRef);
    StatusesAfterClose(c, s, primary, failure, resultRef);
    assert forall i :: 0 <= i < c.Count() ==> StatusOf(c, s', i) == StatusOf(c, closed, i);
    CloseIsWitnessed(c, s, s', primary);
  }

  lemma SameIsWitnessed(c: Config, s: State, s': State)
    requires Witnessed(c, s) && s'.history == s.history && s'.levelStatuses == s.levelStatuses
    ensures Witnessed(c, s')
  {
    assert forall i :: 0 <= i < c.Count() ==> StatusOf(c, s', i) == StatusOf(c, s, i);
  }

  lemma {:induction false} RunIsWitnessed(c: Config, calls: seq<Call>)
    requires Playable(c)
    ensures Witnessed(c, TakeAll(c, calls)) && PassedOnce(TakeAll(c, calls).history)
  {
    if calls == [] {
      NewStateIsUntouched(c);
    } else {
      var s := TakeAll(c, calls[..|calls| - 1]);
      RunIsWitnessed(c, calls[..|calls| - 1]);
      EveryRunIsAccounted(c, calls[..|calls| - 1]);
      CallIsWitnessed(c, s, calls[|calls| - 1]);
    }
  }

  lemma CallIsWitnessed(c: Config, s: State, call: Call)
    requires Playable(c) && Shaped(c, s) && Coherent(c, s) && Witnessed(c, s) && PassedOnce(s.history)
    ensures Witnessed(c, Take(c, s, call)) && PassedOnce(Take(c, s, call).history)
  {
    if call.Record? && Closes(s, call.trialId, call.primary) {
      RecordIsWitnessed(c, s, call.trialId, call.primary, call.failure, call.resultRef);
    } else {
      OthersLeaveHistory(c, s, call);
      SameIsWitnessed(c, s, Take(c, s, call));
    }
  }

  lemma OthersLeaveHistory(c: Config, s: State, call: Call)
    requires InRange(c, s) && !(call.Record? && Closes(s, call.trialId, call.primary))
    ensures Take(c, s, call).history == s.history && Take(c, s, call).levelStatuses == s.levelStatuses
  {
  }

  function Scored(results: seq<Evaluation>): (scored: seq<Scoring.LevelResult>)
    ensures |scored| == |results|
    ensures forall k :: 0 <= k < |results| ==>
              scored[k] == Scoring.LevelResult(results[k].levelId, results[k].attempt, results[k].primary == Passed)
  {
    seq(|results|, k requires 0 <= k < |results| =>
      Scoring.LevelResult(results[k].levelId, results[k].attempt, results[k].primary == Passed))
  }

  /** The scored results say level by level what the history says. */
  ghost predicate Mirrors(scored: seq<Scoring.LevelResult>, history: seq<Completed>) {
    && |scored| == |history|
    && forall k :: 0 <= k < |history| ==>
         scored[k] == Scoring.LevelResult(history[k].trial.levelId, history[k].trial.attempt, history[k].primary == Passed)
  }

  lemma ScoredMirrors(results: seq<Evaluation>, history: seq<Completed>)
    requires Recounts([], results, history)
    ensures Mirrors(Scored(results), history)
  {
    assert forall k :: 0 <= k < |results| ==> Agrees(history[0 + k], results[k]);
  }

  ghost predicate FromLevels(c: Config, history: seq<Completed>) {
    forall k :: 0 <= k < |history| ==>
      history[k].trial.attempt >= 1 && history[k].trial.levelId != "" && history[k].trial.levelId in Levels(c, c.Count())
  }

  lemma HistoryIsFromLevels(c: Config, s: State)
    requires Playable(c) && Told(c, s)
    ensures FromLevels(c, s.history)
  {
    forall k | 0 <= k < |s.history|
      ensures s.history[k].trial.attempt >= 1 && s.history[k].trial.levelId != "" && s.history[k].trial.levelId in Levels(c, c.Count())
    {
      assert Past(c, s, s.history[k].trial);
      var i :| IsTrial(c, s.history[k].trial, i);
      assert Id(c, i) == LevelId(i + 1);
    }
  }

  function Levels(c: Config, n: nat): set<string>
    requires n <= c.Count()
  {
    set i | 0 <= i < n :: Id(c, i)
  }

  lemma {:induction false} LevelsCount(c: Config, n: nat)
    requires n <= c.Count() && forall i, j :: 0 <= i < j < c.Count() ==> Id(c, i) != Id(c, j)
    ensures |Levels(c, n)| == n
  {
    if n > 0 {
      LevelsCount(c, n - 1);
      assert Levels(c, n) == Levels(c, n - 1) + {Id(c, n - 1)};
    }
  }

  /** What scoring makes of a history: the passed levels, each with the attempt of its one pass. */
  lemma ScoreSeesThePasses(scored: seq<Scoring.LevelResult>, history: seq<Completed>)
    requires Mirrors(scored, history) && Scoring.AllAcceptable(scored) && PassedOnce(history)
    ensures Scoring.Positive(Scoring.BestOf(scored))
    ensures forall id :: id in Scoring.BestOf(scored) <==> PassedIn(history, id)
    ensures forall k :: 0 <= k < |history| && history[k].primary == Passed ==>
              && history[k].trial.levelId in Scoring.BestOf(scored)
              && Scoring.BestOf(scored)[history[k].trial.levelId] == history[k].trial.attempt
  {
    var best := Scoring.BestOf(scored);
    Scoring.PassesCount(scored);
    assert forall k, id :: 0 <= k < |history| ==> (PassesLevel(history[k], id) <==> scored[k].passed && scored[k].levelId == id);
    forall k | 0 <= k < |history| && history[k].primary == Passed
      ensures history[k].trial.levelId in best && best[history[k].trial.levelId] == history[k].trial.attempt
    {
      var id := history[k].trial.levelId;
      assert PassesLevel(history[k], id);
      var j :| 0 <= j < |scored| && scored[j] == Scoring.LevelResult(id, best[id], true);
      assert PassesLevel(history[j], id);
      assert j == k;
    }
  }

  lemma PassedLevelsAreLevels(c: Config, s: State, best: Scoring.Best)
    requires Playable(c) && Witnessed(c, s) && FromLevels(c, s.history)
    requires forall id :: id in best <==> PassedIn(s.history, id)
    ensures |best| <= c.Count()
    ensures |best| == c.Count() <==> AllPassed(c, s)
  {
    var all := Levels(c, c.Count());
    LevelsCount(c, c.Count());
    assert best.Keys <= all;
    assert |best| == |best.Keys|;
    Fewer(best.Keys, all);
    if AllPassed(c, s) {
      assert best.Keys == all;
    } else {
      var i :| 0 <= i < c.Count() && StatusOf(c, s, i) != PASSED;
      assert Id(c, i) !in best;
      Fewer(best.Keys, all - {Id(c, i)});
    }
  }

  /** The run's verdict and its score agree in both failure modes: it ends PASS exactly when scoring
      counts every level as passed, and completeness is full exactly when moreover every pass came
      on a first attempt. No level is passed twice. */
  lemma VerdictAgreesWithScore(c: Config, s: State, results: seq<Evaluation>)
    requires Sound(c.episode) && Reachable(c, s) && s.status != ACTIVE && Recounts([], results, s.history)
    ensures Scoring.AllAcceptable(Scored(results))
    ensures Scoring.Positive(Scoring.BestOf(Scored(results)))
    ensures Agreement(c, s, results, Scoring.BestOf(Scored(results)))
    ensures NoLevelPassedTwice(results)
  {
    ReachableIsAccounted(c, s);
    var calls :| s == TakeAll(c, calls);
    RunIsWitnessed(c, calls);
    HistoryIsFromLevels(c, s);
    CoherentVerdict(c, s);
    AgreementIsReached(c, s, results);
  }

  ghost predicate Agreement(c: Config, s: State, results: seq<Evaluation>, best: Scoring.Best)
    requires Scoring.Positive(best)
  {
    && c.Count() >= 1
    && |best| <= c.Count()
    && (s.status == PASS <==> Scoring.Passed(best, c.Count()) == c.Count())
    && (Scoring.Completeness(best, c.Count()) == 1.0 <==> s.status == PASS && FirstAttemptsOnly(results))
  }

  ghost predicate FirstAttemptsOnly(results: seq<Evaluation>) {
    forall k :: 0 <= k < |results| && results[k].primary == Passed ==> results[k].attempt == 1
  }

  ghost predicate NoLevelPassedTwice(results: seq<Evaluation>) {
    forall j, k :: 0 <= j < k < |results| && results[j].primary == Passed && results[k].primary == Passed ==>
      results[j].levelId != results[k].levelId
  }

  lemma AgreementIsReached(c: Config, s: State, results: seq<Evaluation>)
    requires Playable(c) && Witnessed(c, s) && PassedOnce(s.history) && FromLevels(c, s.history)
    requires s.status == PASS <==> AllPassed(c, s)
    requires Recounts([], results, s.history)
    ensures Scoring.AllAcceptable(Scored(results))
    ensures Scoring.Positive(Scoring.BestOf(Scored(results)))
    ensures Agreement(c, s, results, Scoring.BestOf(Scored(results)))
    ensures NoLevelPassedTwice(results)
  {
    var scored := Scored(results);
    ScoredMirrors(results, s.history);
    MirrorIsAcceptable(c, scored, s.history);
    ScoreSeesThePasses(scored, s.history);
    var best := Scoring.BestOf(scored);
    PassedLevelsAreLevels(c, s, best);
    Scoring.FullCompleteness(best, c.Count());
    FirstAttempts(scored, s.history, best);
    OnePassEach(scored, s.history);
    ScoredSpeaksOf(results);
  }

  lemma MirrorIsAcceptable(c: Config, scored: seq<Scoring.LevelResult>, history: seq<Completed>)
    requires Mirrors(scored, history) && FromLevels(c, history)
    ensures Scoring.AllAcceptable(scored)
  {
    assert forall k :: 0 <= k < |history| ==> history[k].trial.attempt >= 1;
  }

  ghost predicate EachPassedFirst(scored: seq<Scoring.LevelResult>) {
    forall k :: 0 <= k < |scored| && scored[k].passed ==> scored[k].attempt == 1
  }

  ghost predicate NonePassedTwice(scored: seq<Scoring.LevelResult>) {
    forall j, k :: 0 <= j < k < |scored| && scored[j].passed && scored[k].passed ==> scored[j].levelId != scored[k].levelId
  }

  lemma ScoredSpeaksOf(results: seq<Evaluation>)
    ensures EachPassedFirst(Scored(results)) <==> FirstAttemptsOnly(results)
    ensures NonePassedTwice(Scored(results)) ==> NoLevelPassedTwice(results)
  {
    var scored := Scored(results);
    assert forall k :: 0 <= k < |results| ==> scored[k].passed == (results[k].primary == Passed);
  }

  lemma OnePassEach(scored: seq<Scoring.LevelResult>, history: seq<Completed>)
    requires Mirrors(scored, history) && PassedOnce(history)
    ensures NonePassedTwice(scored)
  {
    forall j, k | 0 <= j < k < |scored| && scored[j].passed && scored[k].passed
      ensures scored[j].levelId != scored[k].levelId
    {
      assert !PassesLevel(history[k], history[j].trial.levelId);
    }
  }

  lemma FirstAttempts(scored: seq<Scoring.LevelResult>, history: seq<Completed>, best: Scoring.Best)
    requires Mirrors(scored, history)
    requires forall id :: id in best <==> PassedIn(history, id)
    requires forall k :: 0 <= k < |history| && history[k].primary == Passed ==>
               history[k].trial.levelId in best && best[history[k].trial.levelId] == history[k].trial.attempt
    ensures (forall id :: id in best ==> best[id] == 1) <==> EachPassedFirst(scored)
  {
    if EachPassedFirst(scored) {
      forall id | id in best
        ensures best[id] == 1
      {
        var k :| 0 <= k < |history| && PassesLevel(history[k], id);
        assert scored[k].attempt == history[k].trial.attempt;
      }
    }
  }
}
