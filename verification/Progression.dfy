/** Level progression and retry accounting: progression/controller.py. */
module Progression {
  import opened Wrappers
  import opened Labels
  import opened Builder

  datatype Status = ACTIVE | PASS | FAIL | SKIP

  datatype LevelStatus = PENDING | PASSED | FAILED | SKIPPED

  datatype Primary = Passed | Failed | Skipped | Unrecognized(text: string)

  datatype Trial = Trial(trialId: string, levelId: string, attempt: nat)

  datatype Completed = Completed(trial: Trial, primary: Primary, failure: Option<string>, resultRef: string)

  datatype State = State(status: Status, index: int, totalAttempts: int, levelAttempts: map<string, nat>,
                         levelStatuses: map<string, LevelStatus>, openTrial: Option<Trial>,
                         history: seq<Completed>, terminalReason: Option<Reason>)

  datatype Config = Config(episode: Episode, runId: string, continueAfterFailure: bool) {
    function Count(): nat { |episode.levels| }
  }

  datatype ProgressError =
    | EpisodeIsTerminal | TrialIsOpen | LevelBudgetExhausted | EpisodeBudgetExhausted
    | BadPrimary | NotTheOpenTrial

  /** Why the episode ended: one of the controller's own reasons, or the text of a skip. */
  datatype Reason = LevelExhausted | EpisodeExhausted | WithFailures | EveryLevelPassed | Skipping(text: string)

  const EPISODE_EXHAUSTED := "episode_retry_budget_exhausted"

  function Text(reason: Reason): string {
    match reason
    case LevelExhausted => "level_retry_budget_exhausted"
    case EpisodeExhausted => EPISODE_EXHAUSTED
    case WithFailures => "all_levels_executed_with_failures"
    case EveryLevelPassed => "all_levels_passed"
    case Skipping(text) => text
  }

  // ---------------------------------------------------------------- the state functions

  function NewState(c: Config): State {
    State(ACTIVE, 0, 0,
          map i | 0 <= i < c.Count() :: c.episode.levels[i].id := 0,
          map i | 0 <= i < c.Count() :: c.episode.levels[i].id := PENDING,
          None, [], None)
  }

  predicate InRange(c: Config, s: State) { 0 <= s.index < c.Count() }

  function AttemptsOf(s: State, id: string): nat {
    if id in s.levelAttempts then s.levelAttempts[id] else 0
  }

  function Finished(s: State, status: Status, reason: Reason): State {
    s.(status := status, terminalReason := Some(reason))
  }

  function Moved(s: State): State {
    s.(index := s.index + 1, terminalReason := None)
  }

  function Started(c: Config, s: State): (State, Result<Trial, ProgressError>)
    requires InRange(c, s)
  {
    var level := c.episode.levels[s.index];
    var attempts := AttemptsOf(s, level.id);
    if s.status != ACTIVE then (s, Err(EpisodeIsTerminal))
    else if s.openTrial.Some? then (s, Err(TrialIsOpen))
    else if attempts >= level.retryBudget then (Finished(s, FAIL, LevelExhausted), Err(LevelBudgetExhausted))
    else if s.totalAttempts >= c.episode.totalRetryBudget then (Finished(s, FAIL, EpisodeExhausted), Err(EpisodeBudgetExhausted))
    else Begun(c, s, level.id, attempts + 1)
  }

  function Begun(c: Config, s: State, id: string, attempt: nat): (State, Result<Trial, ProgressError>) {
    var trial := Trial(TrialId(c.runId, id, attempt), id, attempt);
    (s.(levelAttempts := s.levelAttempts[id := attempt], totalAttempts := s.totalAttempts + 1, openTrial := Some(trial)),
     Ok(trial))
  }

  predicate AnyFailed(s: State) {
    exists id :: id in s.levelStatuses && s.levelStatuses[id] == FAILED
  }

  function SkipReason(failure: Option<string>): Reason {
    Skipping(if failure.Some? && failure.value != "" then failure.value else "precondition_not_met")
  }

  function Closed(s: State, primary: Primary, failure: Option<string>, resultRef: string): State
    requires s.openTrial.Some?
  {
    var status := match primary case Passed => PASSED case Skipped => SKIPPED case _ => FAILED;
    s.(history := s.history + [Completed(s.openTrial.value, primary, failure, resultRef)],
       openTrial := None,
       levelStatuses := s.levelStatuses[s.openTrial.value.levelId := status])
  }

  function AfterPass(c: Config, s: State): State {
    if s.index + 1 < c.Count() then Moved(s)
    else if c.continueAfterFailure && AnyFailed(s) then Finished(s, FAIL, WithFailures)
    else Finished(s, PASS, EveryLevelPassed)
  }

  function AfterFail(c: Config, s: State, levelId: string): State
    requires InRange(c, s)
  {
    var exhausted := AttemptsOf(s, levelId) >= c.episode.levels[s.index].retryBudget;
    var spent := s.totalAttempts >= c.episode.totalRetryBudget;
    if !exhausted && !spent then s.(terminalReason := None)
    else if c.continueAfterFailure && s.index + 1 < c.Count() then Moved(s)
    else if c.continueAfterFailure then Finished(s, FAIL, WithFailures)
    else Finished(s, FAIL, if exhausted then LevelExhausted else EpisodeExhausted)
  }

  function FirstOf(history: seq<Completed>, trialId: string): Option<Completed> {
    if history == [] then None
    else if history[0].trial.trialId == trialId then Some(history[0])
    else FirstOf(history[1..], trialId)
  }

  function Recorded(c: Config, s: State, trialId: string, primary: Primary, failure: Option<string>, resultRef: string)
    : (State, Result<(), ProgressError>)
    requires InRange(c, s)
  {
    if primary.Unrecognized? then (s, Err(BadPrimary))
    else if s.openTrial.None? || s.openTrial.value.trialId != trialId then
      var existing := FirstOf(s.history, trialId);
      (s, if existing.Some? && existing.value.primary == primary then Ok(()) else Err(NotTheOpenTrial))
    else
      var closed := Closed(s, primary, failure, resultRef);
      var next :=
        if primary == Passed then AfterPass(c, closed)
        else if primary == Skipped then Finished(closed, SKIP, SkipReason(failure))
        else AfterFail(c, closed, s.openTrial.value.levelId);
      (next, Ok(()))
  }

  // ---------------------------------------------------------------- the controller

  class ProgressionController {
    const config: Config
    var state: State
    /** The checkpoint store: what the last `_persist` saved. */
    var saved: State

    constructor (config: Config)
      requires Sound(config.episode)
      ensures this.config == config && state == saved == NewState(config)
    {
      this.config := config;
      state := NewState(config);
      saved := NewState(config);
    }

    method Persist()
      modifies this`saved
      ensures saved == state
    {
      saved := state;
    }

    method Finish(status: Status, reason: Reason)
      modifies this
      ensures state == saved == Finished(old(state), status, reason)
    {
      state := state.(status := status, terminalReason := Some(reason));
      Persist();
    }

    method StartTrial() returns (r: Result<Trial, ProgressError>)
      requires InRange(config, state) && saved == state
      modifies this
      ensures (state, r) == Started(config, old(state))
      ensures saved == state
    {
      if state.status != ACTIVE { return Err(EpisodeIsTerminal); }
      if state.openTrial.Some? { return Err(TrialIsOpen); }
      var level := config.episode.levels[state.index];
      var attempts := AttemptsOf(state, level.id);
      if attempts >= level.retryBudget {
        Finish(FAIL, LevelExhausted);
        return Err(LevelBudgetExhausted);
      }
      if state.totalAttempts >= config.episode.totalRetryBudget {
        Finish(FAIL, EpisodeExhausted);
        return Err(EpisodeBudgetExhausted);
      }
      var attempt := attempts + 1;
      var trialId := TrialId(config.runId, level.id, attempt);
      state := state.(levelAttempts := state.levelAttempts[level.id := attempt]);
      state := state.(totalAttempts := state.totalAttempts + 1);
      var trial := Trial(trialId, level.id, attempt);
      state := state.(openTrial := Some(trial));
      Persist();
      r := Ok(trial);
    }

    method RecordResult(trialId: string, primary: Primary, failure: Option<string>, resultRef: string)
      returns (r: Result<(), ProgressError>)
      requires InRange(config, state) && saved == state
      modifies this
      ensures (state, r) == Recorded(config, old(state), trialId, primary, failure, resultRef)
      ensures saved == state
    {
      if primary.Unrecognized? { return Err(BadPrimary); }
      if state.openTrial.None? || state.openTrial.value.trialId != trialId {
        var existing := FirstOf(state.history, trialId);
        return if existing.Some? && existing.value.primary == primary then Ok(()) else Err(NotTheOpenTrial);
      }
      var open := state.openTrial.value;
      state := state.(history := state.history + [Completed(open, primary, failure, resultRef)]);
      state := state.(openTrial := None);
      var next := state.index + 1;
      if primary == Passed {
        state := state.(levelStatuses := state.levelStatuses[open.levelId := PASSED]);
        if next >= config.Count() {
          if config.continueAfterFailure && AnyFailed(state) {
            Finish(FAIL, WithFailures);
          } else {
            Finish(PASS, EveryLevelPassed);
          }
        } else {
          state := state.(index := next, terminalReason := None);
        }
      } else if primary == Skipped {
        state := state.(levelStatuses := state.levelStatuses[open.levelId := SKIPPED]);
        Finish(SKIP, SkipReason(failure));
      } else {
        state := state.(levelStatuses := state.levelStatuses[open.levelId := FAILED]);
        var exhausted := AttemptsOf(state, open.levelId) >= config.episode.levels[state.index].retryBudget;
        var spent := state.totalAttempts >= config.episode.totalRetryBudget;
        if exhausted || spent {
          if config.continueAfterFailure && next < config.Count() {
            state := state.(index := next, terminalReason := None);
          } else if config.continueAfterFailure {
            Finish(FAIL, WithFailures);
          } else {
            Finish(FAIL, if exhausted then LevelExhausted else EpisodeExhausted);
          }
        } else {
          state := state.(terminalReason := None);
        }
      }
      Persist();
      r := Ok(());
    }
  }

  // ---------------------------------------------------------------- accounting

  function Id(c: Config, i: nat): string
    requires i < c.Count()
  {
    c.episode.levels[i].id
  }

  function BudgetOf(c: Config, i: nat): int
    requires i < c.Count()
  {
    c.episode.levels[i].retryBudget
  }

  function SpentOn(c: Config, s: State, i: nat): nat
    requires i < c.Count()
  {
    AttemptsOf(s, Id(c, i))
  }

  function Attempts(c: Config, s: State): (a: seq<int>)
    ensures |a| == c.Count()
  {
    seq(c.Count(), i requires 0 <= i < c.Count() => SpentOn(c, s, i))
  }

  function StatusOf(c: Config, s: State, i: nat): LevelStatus
    requires i < c.Count()
  {
    if Id(c, i) in s.levelStatuses then s.levelStatuses[Id(c, i)] else PENDING
  }

  /** Level ids tell levels apart, and every level is funded. */
  ghost predicate Playable(c: Config) {
    && c.Count() >= 1
    && (forall i, j :: 0 <= i < j < c.Count() ==> Id(c, i) != Id(c, j))
    && (forall i :: 0 <= i < c.Count() ==> Id(c, i) == LevelId(i + 1) && BudgetOf(c, i) >= 1)
    && Sum(Budgets(c.episode.levels)) == c.episode.totalRetryBudget
  }

  lemma SoundIsPlayable(c: Config)
    requires Sound(c.episode)
    ensures Playable(c)
  {
    forall i, j | 0 <= i < j < c.Count()
      ensures Id(c, i) != Id(c, j)
    {
      if Id(c, i) == Id(c, j) {
        LevelIdIdentifies(i + 1, j + 1);
      }
    }
    forall i | 0 <= i < c.Count()
      ensures BudgetOf(c, i) >= 1
    {
      assert LevelSound(c.episode.levels[i]);
    }
  }

  ghost predicate Shaped(c: Config, s: State) {
    && InRange(c, s)
    && (forall id :: id in s.levelStatuses ==> exists i :: 0 <= i < c.Count() && Id(c, i) == id)
  }

  /** No level overspends, and the total is exactly what the levels have spent. */
  ghost predicate Balanced(c: Config, s: State) {
    && (forall i :: 0 <= i < c.Count() ==> 0 <= SpentOn(c, s, i) <= BudgetOf(c, i))
    && s.totalAttempts == Sum(Attempts(c, s))
    && s.totalAttempts == |s.history| + (if s.openTrial.Some? then 1 else 0)
  }

  /** Levels are settled in order and later ones are untouched. */
  ghost predicate InOrder(c: Config, s: State)
    requires InRange(c, s)
  {
    && (forall i :: s.index < i < c.Count() ==> SpentOn(c, s, i) == 0 && StatusOf(c, s, i) == PENDING)
    && (forall i :: 0 <= i < s.index ==> Settled(c, s, i))
  }

  ghost predicate Settled(c: Config, s: State, i: nat)
    requires i < c.Count()
  {
    || StatusOf(c, s, i) == PASSED
    || (c.continueAfterFailure && StatusOf(c, s, i) == FAILED && SpentOn(c, s, i) == BudgetOf(c, i))
  }

  ghost predicate AllPassed(c: Config, s: State) {
    forall i :: 0 <= i < c.Count() ==> StatusOf(c, s, i) == PASSED
  }

  ghost predicate Coherent(c: Config, s: State)
    requires InRange(c, s)
  {
    match s.status
    case ACTIVE =>
      && s.terminalReason == None
      && StatusOf(c, s, s.index) in {PENDING, FAILED}
      && (if s.openTrial.Some? then OpenIsCurrent(c, s) else SpentOn(c, s, s.index) < BudgetOf(c, s.index))
    case PASS => s.openTrial.None? && AllPassed(c, s) && s.terminalReason == Some(EveryLevelPassed)
    case FAIL =>
      && s.openTrial.None? && AnyFailed(s) && StatusOf(c, s, s.index) in {PASSED, FAILED}
      && s.terminalReason == Some(if c.continueAfterFailure then WithFailures else LevelExhausted)
    case SKIP =>
      && s.openTrial.None? && StatusOf(c, s, s.index) == SKIPPED
      && s.history != [] && s.terminalReason == Some(SkipReason(s.history[|s.history| - 1].failure))
  }

  ghost predicate OpenIsCurrent(c: Config, s: State)
    requires InRange(c, s) && s.openTrial.Some?
  {
    IsTrial(c, s.openTrial.value, s.index) && s.openTrial.value.attempt == SpentOn(c, s, s.index)
  }

  /** A trial of level i. */
  ghost predicate IsTrial(c: Config, t: Trial, i: int) {
    && 0 <= i < c.Count() && t.levelId == Id(c, i)
    && t.attempt >= 1 && t.trialId == TrialId(c.runId, t.levelId, t.attempt)
  }

  /** Every past trial was a real one, older than the open one, and no two share an id. */
  ghost predicate Told(c: Config, s: State) {
    NoTwoAlike(s.history) && forall k :: 0 <= k < |s.history| ==> Past(c, s, s.history[k].trial)
  }

  ghost predicate NoTwoAlike(history: seq<Completed>) {
    forall j, k :: 0 <= j < k < |history| ==> history[j].trial.trialId != history[k].trial.trialId
  }

  ghost predicate Past(c: Config, s: State, t: Trial) {
    && (exists i :: IsTrial(c, t, i))
    && t.attempt <= AttemptsOf(s, t.levelId)
    && (s.openTrial.Some? && s.openTrial.value.levelId == t.levelId ==> t.attempt < s.openTrial.value.attempt)
  }

  ghost predicate Accounted(c: Config, s: State) {
    Shaped(c, s) && Balanced(c, s) && InOrder(c, s) && Coherent(c, s) && Told(c, s)
  }

  lemma {:induction false} SumOfZeros(s: seq<int>)
    requires forall i :: 0 <= i < |s| ==> s[i] == 0
    ensures Sum(s) == 0
  {
    if s != [] {
      SumOfZeros(s[..|s| - 1]);
    }
  }

  lemma {:induction false} SumBelow(a: seq<int>, b: seq<int>)
    requires |a| == |b| && forall i :: 0 <= i < |a| ==> a[i] <= b[i]
    ensures Sum(a) <= Sum(b)
    ensures forall i :: 0 <= i < |a| && a[i] < b[i] ==> Sum(a) < Sum(b)
  {
    if a != [] {
      SumBelow(a[..|a| - 1], b[..|b| - 1]);
      assert forall i :: 0 <= i < |a| - 1 ==> a[..|a| - 1][i] == a[i] && b[..|b| - 1][i] == b[i];
    }
  }

  /** While a level has attempts left, so has the episode. */
  lemma RoomInLevelIsRoomInEpisode(c: Config, s: State)
    requires Playable(c) && InRange(c, s) && Balanced(c, s)
    ensures s.totalAttempts <= c.episode.totalRetryBudget
    ensures SpentOn(c, s, s.index) < BudgetOf(c, s.index) ==> s.totalAttempts < c.episode.totalRetryBudget
  {
    var a, b := Attempts(c, s), Budgets(c.episode.levels);
    assert forall i :: 0 <= i < c.Count() ==> a[i] == SpentOn(c, s, i) && b[i] == BudgetOf(c, i);
    SumBelow(a, b);
  }

  lemma NewStateIsAccounted(c: Config)
    requires Playable(c)
    ensures Accounted(c, NewState(c))
  {
    var s := NewState(c);
    NewStateIsUntouched(c);
    assert forall i :: 0 <= i < c.Count() ==> Attempts(c, s)[i] == 0;
    SumOfZeros(Attempts(c, s));
  }

  lemma NewStateIsUntouched(c: Config)
    ensures forall i :: 0 <= i < c.Count() ==> SpentOn(c, NewState(c), i) == 0 && StatusOf(c, NewState(c), i) == PENDING
    ensures c.Count() >= 1 ==> Shaped(c, NewState(c))
  {
    var s := NewState(c);
    assert forall i :: 0 <= i < c.Count() ==> c.episode.levels[i].id == Id(c, i);
    forall id | id in s.levelStatuses
      ensures exists i :: 0 <= i < c.Count() && Id(c, i) == id
    {
      var i :| 0 <= i < c.Count() && c.episode.levels[i].id == id;
      assert Id(c, i) == id;
    }
  }

  /** A trial is started exactly when the episode is active with none open: never is one refused
      for a spent budget. */
  lemma StartIsNeverShort(c: Config, s: State)
    requires Playable(c) && InRange(c, s) && Balanced(c, s) && Coherent(c, s)
    ensures Started(c, s).1.Ok? <==> s.status == ACTIVE && s.openTrial.None?
    ensures Started(c, s).1.Ok? ==> Starts(c, s, Started(c, s).0)
    ensures Started(c, s).1.Err? ==> Started(c, s).0 == s && Started(c, s).1.error in {EpisodeIsTerminal, TrialIsOpen}
  {
    RoomInLevelIsRoomInEpisode(c, s);
  }

  lemma StartIsAccounted(c: Config, s: State)
    requires Playable(c) && Accounted(c, s)
    ensures Accounted(c, Started(c, s).0)
  {
    StartIsNeverShort(c, s);
    if Started(c, s).1.Ok? {
      var s' := Started(c, s).0;
      OnlyCurrentSpends(c, s, s');
      StartBalances(c, s, s');
      StartKeepsOrder(c, s, s');
      StartIsTold(c, s, s');
    }
  }

  ghost predicate Starts(c: Config, s: State, s': State) {
    InRange(c, s) && s' == Begun(c, s, Id(c, s.index), SpentOn(c, s, s.index) + 1).0
  }

  lemma OnlyCurrentSpends(c: Config, s: State, s': State)
    requires Playable(c) && Starts(c, s, s')
    ensures forall i :: 0 <= i < c.Count() ==> SpentOn(c, s', i) == SpentOn(c, s, i) + if i == s.index then 1 else 0
  {
  }

  lemma StartBalances(c: Config, s: State, s': State)
    requires InRange(c, s) && Balanced(c, s) && s.openTrial.None? && SpentOn(c, s, s.index) < BudgetOf(c, s.index)
    requires s'.totalAttempts == s.totalAttempts + 1 && s'.history == s.history && s'.openTrial.Some?
    requires forall i :: 0 <= i < c.Count() ==> SpentOn(c, s', i) == SpentOn(c, s, i) + if i == s.index then 1 else 0
    ensures Balanced(c, s')
  {
    var a := Attempts(c, s);
    SumBump(a, s.index);
    assert Attempts(c, s') == a[s.index := a[s.index] + 1];
  }

  lemma StartKeepsOrder(c: Config, s: State, s': State)
    requires Playable(c) && Shaped(c, s) && InOrder(c, s) && Coherent(c, s) && s.status == ACTIVE && s.openTrial.None?
    requires Starts(c, s, s')
    ensures Shaped(c, s') && InOrder(c, s') && Coherent(c, s')
  {
    OnlyCurrentSpends(c, s, s');
    assert forall i :: 0 <= i < c.Count() ==> StatusOf(c, s', i) == StatusOf(c, s, i);
    forall i | 0 <= i < s.index
      ensures Settled(c, s', i)
    {
      assert Settled(c, s, i);
    }
    assert IsTrial(c, s'.openTrial.value, s.index);
  }

  lemma StartIsTold(c: Config, s: State, s': State)
    requires Told(c, s) && s.openTrial.None? && InRange(c, s) && Starts(c, s, s')
    ensures Told(c, s')
  {
    forall k | 0 <= k < |s'.history|
      ensures Past(c, s', s'.history[k].trial)
    {
      assert Past(c, s, s.history[k].trial);
    }
  }

  /** A recorded result, whatever it is and whichever trial it names. */
  lemma RecordIsAccounted(c: Config, s: State, trialId: string, primary: Primary, failure: Option<string>, resultRef: string)
    requires Playable(c) && Accounted(c, s)
    ensures Accounted(c, Recorded(c, s, trialId, primary, failure, resultRef).0)
  {
    if Closes(s, trialId, primary) {
      RecordCounts(c, s, trialId, primary, failure, resultRef);
      RecordOrders(c, s, trialId, primary, failure, resultRef);
    }
  }

  /** What closing a trial fixes, whatever the verdict moves afterwards. */
  lemma RecordedFromClosed(c: Config, s: State, trialId: string, primary: Primary, failure: Option<string>, resultRef: string)
    requires InRange(c, s) && Closes(s, trialId, primary)
    ensures var s', closed := Recorded(c, s, trialId, primary, failure, resultRef).0, Closed(s, primary, failure, resultRef);
            && s'.history == closed.history && s'.levelStatuses == closed.levelStatuses && s'.levelAttempts == s.levelAttempts
            && s'.totalAttempts == s.totalAttempts && s'.openTrial.None?
            && s.index <= s'.index <= s.index + 1
  {
  }

  lemma RecordCounts(c: Config, s: State, trialId: string, primary: Primary, failure: Option<string>, resultRef: string)
    requires Playable(c) && Accounted(c, s) && Closes(s, trialId, primary)
    ensures Balanced(c, Recorded(c, s, trialId, primary, failure, resultRef).0)
    ensures Told(c, Recorded(c, s, trialId, primary, failure, resultRef).0)
  {
    var s' := Recorded(c, s, trialId, primary, failure, resultRef).0;
    RecordedFromClosed(c, s, trialId, primary, failure, resultRef);
    CloseIsTold(c, s, s');
    SameAttempts(c, s, s');
  }

  lemma RecordOrders(c: Config, s: State, trialId: string, primary: Primary, failure: Option<string>, resultRef: string)
    requires Playable(c) && Accounted(c, s) && Closes(s, trialId, primary)
    ensures var s' := Recorded(c, s, trialId, primary, failure, resultRef).0;
            Shaped(c, s') && InOrder(c, s') && Coherent(c, s')
  {
    var s' := Recorded(c, s, trialId, primary, failure, resultRef).0;
    var closed := Closed(s, primary, failure, resultRef);
    StatusesAfterClose(c, s, primary, failure, resultRef);
    if primary == Passed {
      PassKeepsOrder(c, s, closed);
    } else if primary == Skipped {
      SkipKeepsOrder(c, s, closed, s');
    } else {
      FailKeepsOrder(c, s, closed);
    }
  }

  /** The result closes the open trial. */
  predicate Closes(s: State, trialId: string, primary: Primary) {
    !primary.Unrecognized? && s.openTrial.Some? && s.openTrial.value.trialId == trialId
  }

  lemma SameAttempts(c: Config, s: State, s': State)
    requires Balanced(c, s) && s.openTrial.Some?
    requires s'.levelAttempts == s.levelAttempts && s'.totalAttempts == s.totalAttempts
    requires |s'.history| == |s.history| + 1 && s'.openTrial.None?
    ensures Balanced(c, s') && Attempts(c, s') == Attempts(c, s)
    ensures forall i :: 0 <= i < c.Count() ==> SpentOn(c, s', i) == SpentOn(c, s, i)
  {
    assert forall i :: 0 <= i < c.Count() ==> SpentOn(c, s', i) == SpentOn(c, s, i);
    assert Attempts(c, s') == Attempts(c, s);
  }

  lemma CloseIsTold(c: Config, s: State, s': State)
    requires Playable(c) && InRange(c, s) && Told(c, s) && s.openTrial.Some? && OpenIsCurrent(c, s)
    requires s'.levelAttempts == s.levelAttempts && s'.openTrial.None?
    requires |s'.history| == |s.history| + 1 && s'.history[|s.history|].trial == s.openTrial.value
    requires forall k :: 0 <= k < |s.history| ==> s'.history[k] == s.history[k]
    ensures Told(c, s')
  {
    var n := |s.history|;
    forall k | 0 <= k < n
      ensures s.history[k].trial.trialId != s'.history[n].trial.trialId
    {
      PastIsNotOpen(c, s, s.history[k].trial);
    }
    AddedIsUnlike(s.history, s'.history);
    forall k | 0 <= k <= n
      ensures Past(c, s', s'.history[k].trial)
    {
      if k < n {
        PastStays(c, s, s', s.history[k].trial);
      } else {
        OpenIsPast(c, s, s');
      }
    }
  }

  lemma AddedIsUnlike(before: seq<Completed>, after: seq<Completed>)
    requires NoTwoAlike(before) && |after| == |before| + 1
    requires forall k :: 0 <= k < |before| ==> after[k] == before[k]
    requires forall k :: 0 <= k < |before| ==> before[k].trial.trialId != after[|before|].trial.trialId
    ensures NoTwoAlike(after)
  {
  }

  lemma PastStays(c: Config, s: State, s': State, t: Trial)
    requires Past(c, s, t) && s'.levelAttempts == s.levelAttempts && s'.openTrial.None?
    ensures Past(c, s', t)
  {
  }

  lemma OpenIsPast(c: Config, s: State, s': State)
    requires InRange(c, s) && s.openTrial.Some? && OpenIsCurrent(c, s)
    requires s'.levelAttempts == s.levelAttempts && s'.openTrial.None?
    ensures Past(c, s', s.openTrial.value)
  {
    assert IsTrial(c, s.openTrial.value, s.index);
  }

  lemma PastIsNotOpen(c: Config, s: State, t: Trial)
    requires Playable(c) && InRange(c, s) && s.openTrial.Some? && OpenIsCurrent(c, s) && Past(c, s, t)
    ensures t.trialId != s.openTrial.value.trialId
  {
    var open := s.openTrial.value;
    var i :| IsTrial(c, t, i);
    assert Id(c, i) == LevelId(i + 1) && Id(c, s.index) == LevelId(s.index + 1);
    if t.trialId == open.trialId {
      TrialIdIdentifies(c.runId, i + 1, s.index + 1, t.attempt, open.attempt);
    }
  }

  function Settles(primary: Primary): LevelStatus {
    match primary case Passed => PASSED case Skipped => SKIPPED case _ => FAILED
  }

  lemma StatusesAfterClose(c: Config, s: State, primary: Primary, failure: Option<string>, resultRef: string)
    requires Playable(c) && Shaped(c, s) && s.openTrial.Some? && s.openTrial.value.levelId == Id(c, s.index)
    ensures var closed := Closed(s, primary, failure, resultRef);
            Shaped(c, closed) && OnlyStatus(c, s, closed, Settles(primary))
  {
  }

  ghost predicate OnlyStatus(c: Config, s: State, s': State, status: LevelStatus)
    requires InRange(c, s)
  {
    && s'.levelAttempts == s.levelAttempts
    && s'.index == s.index
    && StatusOf(c, s', s.index) == status
    && forall i :: 0 <= i < c.Count() && i != s.index ==> StatusOf(c, s', i) == StatusOf(c, s, i)
  }

  /** What closing keeps of the order before the index moves. */
  lemma OrderAfterClose(c: Config, s: State, closed: State, status: LevelStatus)
    requires InRange(c, s) && InOrder(c, s) && OnlyStatus(c, s, closed, status)
    ensures InOrder(c, closed)
    ensures s.index + 1 < c.Count() && Settled(c, closed, s.index) ==> InOrder(c, Moved(closed))
    ensures s.index + 1 < c.Count() ==> SpentOn(c, closed, s.index + 1) == 0 && StatusOf(c, closed, s.index + 1) == PENDING
  {
    forall i | 0 <= i < s.index
      ensures Settled(c, closed, i)
    {
      assert Settled(c, s, i);
    }
    var moved := Moved(closed);
    assert forall i :: 0 <= i < c.Count() ==> StatusOf(c, moved, i) == StatusOf(c, closed, i) && SpentOn(c, moved, i) == SpentOn(c, closed, i);
    assert forall i :: 0 <= i < c.Count() && Settled(c, closed, i) ==> Settled(c, moved, i);
  }

  /** Nothing failed exactly when every level passed, once the last level has. */
  lemma NothingFailed(c: Config, s: State)
    requires Shaped(c, s) && InOrder(c, s) && s.index == c.Count() - 1 && StatusOf(c, s, s.index) == PASSED
    ensures AllPassed(c, s) <==> !AnyFailed(s)
    ensures !c.continueAfterFailure ==> AllPassed(c, s)
  {
    forall i | 0 <= i < c.Count() && (!AnyFailed(s) || !c.continueAfterFailure)
      ensures StatusOf(c, s, i) == PASSED
    {
      assert i < s.index ==> Settled(c, s, i);
      assert StatusOf(c, s, i) == FAILED ==> s.levelStatuses[Id(c, i)] == FAILED;
    }
    if AnyFailed(s) {
      var id :| id in s.levelStatuses && s.levelStatuses[id] == FAILED;
      var i :| 0 <= i < c.Count() && Id(c, i) == id;
      assert StatusOf(c, s, i) == FAILED;
    }
  }

  lemma SameOrder(c: Config, s: State, s': State)
    requires InRange(c, s) && InOrder(c, s) && s'.index == s.index
    requires s'.levelAttempts == s.levelAttempts && s'.levelStatuses == s.levelStatuses
    ensures InOrder(c, s') && (AllPassed(c, s) ==> AllPassed(c, s'))
  {
    assert forall i :: 0 <= i < c.Count() ==> StatusOf(c, s', i) == StatusOf(c, s, i) && SpentOn(c, s', i) == SpentOn(c, s, i);
    assert forall i :: 0 <= i < c.Count() && Settled(c, s, i) ==> Settled(c, s', i);
  }

  lemma PassKeepsOrder(c: Config, s: State, closed: State)
    requires Playable(c) && Shaped(c, s) && InOrder(c, s)
    requires Shaped(c, closed) && OnlyStatus(c, s, closed, PASSED) && closed.openTrial.None? && closed.status == ACTIVE
    ensures var s' := AfterPass(c, closed); Shaped(c, s') && InOrder(c, s') && Coherent(c, s')
  {
    var s' := AfterPass(c, closed);
    OrderAfterClose(c, s, closed, PASSED);
    if s.index + 1 < c.Count() {
      assert StatusOf(c, s', s'.index) == PENDING && SpentOn(c, s', s'.index) == 0;
    } else {
      NothingFailed(c, closed);
      SameOrder(c, closed, s');
    }
  }

  lemma SkipKeepsOrder(c: Config, s: State, closed: State, s': State)
    requires Shaped(c, s) && InOrder(c, s)
    requires Shaped(c, closed) && OnlyStatus(c, s, closed, SKIPPED) && closed.openTrial.None?
    requires closed.history != [] && s' == Finished(closed, SKIP, SkipReason(closed.history[|closed.history| - 1].failure))
    ensures Shaped(c, s') && InOrder(c, s') && Coherent(c, s')
  {
    OrderAfterClose(c, s, closed, SKIPPED);
    SameOrder(c, closed, s');
  }

  lemma FailKeepsOrder(c: Config, s: State, closed: State)
    requires Playable(c) && Shaped(c, s) && InOrder(c, s) && Balanced(c, s)
    requires Shaped(c, closed) && OnlyStatus(c, s, closed, FAILED) && closed.openTrial.None? && closed.status == ACTIVE
    requires closed.totalAttempts == s.totalAttempts
    ensures var s' := AfterFail(c, closed, Id(c, s.index)); Shaped(c, s') && InOrder(c, s') && Coherent(c, s')
  {
    var s' := AfterFail(c, closed, Id(c, s.index));
    OrderAfterClose(c, s, closed, FAILED);
    RoomInLevelIsRoomInEpisode(c, s);
    assert SpentOn(c, closed, s.index) == SpentOn(c, s, s.index) <= BudgetOf(c, s.index);
    assert AnyFailed(closed) by {
      assert Id(c, s.index) in closed.levelStatuses && closed.levelStatuses[Id(c, s.index)] == FAILED;
    }
    if s'.index == s.index {
      SameOrder(c, closed, s');
    } else {
      assert Settled(c, closed, s.index);
      assert StatusOf(c, s', s'.index) == PENDING && SpentOn(c, s', s'.index) == 0;
    }
  }

  // ---------------------------------------------------------------- whole runs

  datatype Call =
    | Start
    | Record(trialId: string, primary: Primary, failure: Option<string>, resultRef: string)

  function Take(c: Config, s: State, call: Call): (s': State)
    requires InRange(c, s)
    ensures InRange(c, s')
  {
    match call
    case Start => Started(c, s).0
    case Record(trialId, primary, failure, resultRef) => Recorded(c, s, trialId, primary, failure, resultRef).0
  }

  function TakeAll(c: Config, calls: seq<Call>): (s: State)
    requires c.Count() >= 1
    ensures InRange(c, s)
  {
    if calls == [] then NewState(c) else Take(c, TakeAll(c, calls[..|calls| - 1]), calls[|calls| - 1])
  }

  lemma {:induction false} EveryRunIsAccounted(c: Config, calls: seq<Call>)
    requires Playable(c)
    ensures Accounted(c, TakeAll(c, calls))
  {
    if calls == [] {
      NewStateIsAccounted(c);
    } else {
      var s := TakeAll(c, calls[..|calls| - 1]);
      EveryRunIsAccounted(c, calls[..|calls| - 1]);
      match calls[|calls| - 1] {
        case Start => StartIsAccounted(c, s);
        case Record(trialId, primary, failure, resultRef) => RecordIsAccounted(c, s, trialId, primary, failure, resultRef);
      }
    }
  }

  /** From a fresh start, whatever is called in whatever order: attempts stay within the budget,
      both exhaustion errors are dead, and the reason "episode_retry_budget_exhausted" is never the
      controller's own. It appears exactly when a skipping caller supplies that text. */
  lemma BudgetErrorsAreUnreachable(c: Config, calls: seq<Call>)
    requires Sound(c.episode)
    ensures var s := TakeAll(c, calls);
            && s.totalAttempts == Sum(Attempts(c, s)) <= c.episode.totalRetryBudget
            && s.totalAttempts == |s.history| + (if s.openTrial.Some? then 1 else 0)
            && (Started(c, s).1.Ok? <==> s.status == ACTIVE && s.openTrial.None?)
            && (Started(c, s).1.Err? ==> Started(c, s).1.error in {EpisodeIsTerminal, TrialIsOpen})
    ensures var s := TakeAll(c, calls);
            s.terminalReason.Some? && Text(s.terminalReason.value) == EPISODE_EXHAUSTED <==>
              s.status == SKIP && s.history != [] && s.history[|s.history| - 1].failure == Some(EPISODE_EXHAUSTED)
  {
    SoundIsPlayable(c);
    EveryRunIsAccounted(c, calls);
    var s := TakeAll(c, calls);
    RoomInLevelIsRoomInEpisode(c, s);
    StartIsNeverShort(c, s);
    if s.terminalReason.Some? {
      OnlyTheseReadSo(s.terminalReason.value);
    }
  }

  lemma OnlyTheseReadSo(reason: Reason)
    ensures Text(reason) == EPISODE_EXHAUSTED <==> reason.EpisodeExhausted? || reason == SkipReason(Some(EPISODE_EXHAUSTED))
    ensures forall failure :: SkipReason(failure) == SkipReason(Some(EPISODE_EXHAUSTED)) <==> failure == Some(EPISODE_EXHAUSTED)
  {
    assert Text(LevelExhausted)[0] == 'l' && Text(WithFailures)[0] == 'a' && Text(EveryLevelPassed)[0] == 'a';
    assert EPISODE_EXHAUSTED[0] == 'e' && "precondition_not_met"[0] == 'p';
  }

  /** Budgets spent and levels settled, on every run: no level overspends, the levels after the
      current one are untouched, the ones before it passed or ran out. */
  lemma LevelsAreTakenInOrder(c: Config, calls: seq<Call>, i: nat)
    requires Sound(c.episode) && i < c.Count()
    ensures var s := TakeAll(c, calls);
            && 0 <= SpentOn(c, s, i) <= BudgetOf(c, i)
            && (i > s.index ==> SpentOn(c, s, i) == 0 && StatusOf(c, s, i) == PENDING)
            && (i < s.index ==> Settled(c, s, i))
  {
    SoundIsPlayable(c);
    EveryRunIsAccounted(c, calls);
  }

  /** The final status says what the levels' statuses say. */
  lemma VerdictAgreesWithLevels(c: Config, calls: seq<Call>)
    requires Sound(c.episode)
    ensures var s := TakeAll(c, calls);
            s.status != ACTIVE ==>
              && (s.status == PASS <==> AllPassed(c, s))
              && (s.status == FAIL <==> AnyFailed(s) && StatusOf(c, s, s.index) != SKIPPED)
  {
    SoundIsPlayable(c);
    EveryRunIsAccounted(c, calls);
    if TakeAll(c, calls).status != ACTIVE {
      CoherentVerdict(c, TakeAll(c, calls));
    }
  }

  lemma CoherentVerdict(c: Config, s: State)
    requires Shaped(c, s) && Coherent(c, s) && s.status != ACTIVE
    ensures s.status == PASS <==> AllPassed(c, s)
    ensures s.status == FAIL <==> AnyFailed(s) && StatusOf(c, s, s.index) != SKIPPED
  {
    if AnyFailed(s) {
      var id :| id in s.levelStatuses && s.levelStatuses[id] == FAILED;
      var i :| 0 <= i < c.Count() && Id(c, i) == id;
      assert StatusOf(c, s, i) == FAILED;
    }
  }

  lemma {:induction false} FirstIsTheOne(history: seq<Completed>, k: nat)
    requires k < |history| && NoTwoAlike(history)
    ensures FirstOf(history, history[k].trial.trialId) == Some(history[k])
  {
    if k > 0 {
      assert history[0].trial.trialId != history[k].trial.trialId;
      FirstIsTheOne(history[1..], k - 1);
    }
  }

  /** Reporting a past trial again changes nothing; it is accepted exactly when it repeats the
      result already recorded. */
  lemma ReplayIsHarmless(c: Config, calls: seq<Call>, k: nat, primary: Primary, failure: Option<string>, resultRef: string)
    requires Sound(c.episode) && k < |TakeAll(c, calls).history| && !primary.Unrecognized?
    ensures var s := TakeAll(c, calls);
            Recorded(c, s, s.history[k].trial.trialId, primary, failure, resultRef)
            == (s, if primary == s.history[k].primary then Ok(()) else Err(NotTheOpenTrial))
  {
    SoundIsPlayable(c);
    EveryRunIsAccounted(c, calls);
    var s := TakeAll(c, calls);
    assert Past(c, s, s.history[k].trial);
    if s.openTrial.Some? {
      PastIsNotOpen(c, s, s.history[k].trial);
    }
    FirstIsTheOne(s.history, k);
  }

  /** An episode that has ended stays exactly as it ended. */
  lemma {:induction false} EndedStaysEnded(c: Config, calls: seq<Call>, later: seq<Call>)
    requires Sound(c.episode)
    ensures TakeAll(c, calls).status != ACTIVE ==> TakeAll(c, calls + later) == TakeAll(c, calls)
  {
    if later == [] {
      assert calls + later == calls;
    } else {
      var n := |later| - 1;
      EndedStaysEnded(c, calls, later[..n]);
      assert (calls + later)[..|calls + later| - 1] == calls + later[..n];
      SoundIsPlayable(c);
      EveryRunIsAccounted(c, calls);
    }
  }
}
