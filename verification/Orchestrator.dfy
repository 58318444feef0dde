/** The trial loop: progression/orchestrator.py. */
module Orchestrator {
  import opened Wrappers
  import opened Builder
  import opened Progression
  import Injector
  import SafetyGate

  /** What the evaluator says about one trial. */
  datatype Evaluation = Evaluation(levelId: string, attempt: int, primary: Primary, failure: Option<string>, resultRef: Option<string>)

  /** The adapters, as arbitrary outcomes: preparing may fail; the injector factory may raise; the
      runner emits some events and may then raise; the evaluator judges from the ticket and the
      Controller's own records, or raises. */
  datatype Adapters = Adapters(
    prepares: Trial -> bool,
    emits: Trial -> seq<Injector.Event>,
    injectorFor: Trial -> Option<Injector.Config>,
    evaluate: (Trial, seq<Injector.Record>) -> Option<Evaluation>)

  datatype OrchestratorError = FactoryRaised | EvaluatorRaised | ResultMismatch | BadStatus

  /** One trial as it was carried out; no injector exists when preparation failed or the factory raised. */
  datatype TrialReport = TrialReport(ticket: Trial, injected: Option<Injector.State>)

  predicate Answers(e: Evaluation, t: Trial) { e.levelId == t.levelId && e.attempt == t.attempt }

  predicate Agrees(entry: Completed, e: Evaluation) {
    entry.trial.levelId == e.levelId && entry.trial.attempt == e.attempt && entry.primary == e.primary
  }

  ghost predicate Reachable(c: Config, s: State) {
    c.Count() >= 1 && exists calls :: s == TakeAll(c, calls)
  }

  lemma OneMoreCall(c: Config, s: State, call: Call)
    requires Reachable(c, s)
    ensures Reachable(c, Take(c, s, call))
  {
    var calls :| s == TakeAll(c, calls);
    assert (calls + [call])[..|calls|] == calls;
    assert TakeAll(c, calls + [call]) == Take(c, s, call);
  }

  lemma ReachableIsAccounted(c: Config, s: State)
    requires Sound(c.episode) && Reachable(c, s)
    ensures Playable(c) && Accounted(c, s) && s.totalAttempts <= c.episode.totalRetryBudget
  {
    SoundIsPlayable(c);
    var calls :| s == TakeAll(c, calls);
    EveryRunIsAccounted(c, calls);
    RoomInLevelIsRoomInEpisode(c, s);
  }

  /** Every disturbance of the trial that needed cleaning up has been cleaned up once. */
  ghost predicate LeftClean(a: Adapters, report: TrialReport) {
    report.injected.Some? ==>
      && a.injectorFor(report.ticket).Some?
      && report.injected.value.active == []
      && forall id :: Injector.Cleanups(report.injected.value.records, id)
                      == Injector.Debts(a.injectorFor(report.ticket).value, report.injected.value.records, id) <= 1
  }

  ghost predicate AllLeftClean(a: Adapters, reports: seq<TrialReport>) {
    forall k :: 0 <= k < |reports| ==> LeftClean(a, reports[k])
  }

  class MultiLevelOrchestrator {
    const controller: ProgressionController
    const adapters: Adapters
    var reports: seq<TrialReport>

    constructor (controller: ProgressionController, adapters: Adapters)
      ensures this.controller == controller && this.adapters == adapters && reports == []
    {
      this.controller := controller;
      this.adapters := adapters;
      reports := [];
    }

    /** The live part of a trial: events go to a new injector, and whatever the runner did the
        injector is cleaned up. */
    method Conduct(ticket: Trial) returns (report: TrialReport, records: seq<Injector.Record>)
      ensures report.ticket == ticket && (report.injected.Some? <==> adapters.prepares(ticket) && adapters.injectorFor(ticket).Some?)
      ensures records == if report.injected.Some? then report.injected.value.records else []
      ensures LeftClean(adapters, report)
    {
      if !adapters.prepares(ticket) || adapters.injectorFor(ticket).None? { return TrialReport(ticket, None), []; }
      var config := adapters.injectorFor(ticket).value;
      var gate := new SafetyGate.ControllerDisturbanceSafetyGate(config.policy, config.allowedTypes);
      var injector := new Injector.DisturbanceInjector(config, gate);
      var events := adapters.emits(ticket);
      ghost var calls: seq<Injector.Call> := [];
      for k := 0 to |events|
        invariant injector.Valid() && injector.config == config
        invariant injector.Snapshot() == Injector.TakeAll(config, calls)
      {
        var accepted := injector.ProcessEvent(events[k]);
        assert (calls + [Injector.OnEvent(events[k])])[..|calls|] == calls;
        calls := calls + [Injector.OnEvent(events[k])];
      }
      injector.CleanupAll();
      assert (calls + [Injector.CleanUp])[..|calls|] == calls;
      ghost var end := Injector.TakeAll(config, calls + [Injector.CleanUp]);
      assert injector.Snapshot() == end;
      forall id
        ensures Injector.Cleanups(end.records, id) == Injector.Debts(config, end.records, id) <= 1
      {
        Injector.CleanupSettlesEverything(config, calls, id);
        Injector.InjectorAccounts(config, calls + [Injector.CleanUp], id);
      }
      var state := Injector.State(injector.triggered, injector.occurrences, injector.active, injector.records);
      report, records := TrialReport(ticket, Some(state)), injector.records;
    }

    /** The evaluator's answer, if it can be recorded for the trial. */
    method Judge(ticket: Trial, records: seq<Injector.Record>) returns (r: Result<Evaluation, OrchestratorError>)
      ensures r.Ok? ==> adapters.evaluate(ticket, records) == Some(r.value) && Answers(r.value, ticket) && !r.value.primary.Unrecognized?
      ensures r.Err? ==> AdapterFault(adapters, ticket, r.error)
    {
      var answer := adapters.evaluate(ticket, records);
      var refusal := Refusal(answer, ticket);
      if refusal.Some? {
        assert Refusal(adapters.evaluate(ticket, records), ticket) == Some(refusal.value);
        return Err(refusal.value);
      }
      r := Ok(answer.value);
    }

    /** One turn of the loop: start, conduct, evaluate, record. */
    method RunTrial() returns (r: Result<Evaluation, OrchestratorError>)
      requires Sound(controller.config.episode) && Ready(controller.config, controller.state)
      requires controller.saved == controller.state && controller.state.status == ACTIVE
      modifies this`reports, controller
      ensures Reachable(controller.config, controller.state) && controller.saved == controller.state
      ensures controller.state.totalAttempts == old(controller.state.totalAttempts) + 1 <= controller.config.episode.totalRetryBudget
      ensures |reports| == |old(reports)| + 1
      ensures AllLeftClean(adapters, old(reports)) ==> AllLeftClean(adapters, reports)
      ensures r.Ok? ==> Ready(controller.config, controller.state)
      ensures r.Ok? ==> Recounts(old(controller.state.history), [r.value], controller.state.history)
      ensures r.Err? ==> controller.state.openTrial.Some? && AdapterFault(adapters, controller.state.openTrial.value, r.error)
    {
      ghost var c, s := controller.config, controller.state;
      StartOpens(c, s);
      var started := controller.StartTrial();
      var ticket := started.value;
      var report, records := Conduct(ticket);
      reports := reports + [report];
      if adapters.prepares(ticket) && adapters.injectorFor(ticket).None? { return Err(FactoryRaised); }
      var judged := Judge(ticket, records);
      if judged.Err? { return Err(judged.error); }
      var result := judged.value;
      ghost var open := controller.state;
      var resultRef := if result.resultRef.Some? && result.resultRef.value != "" then result.resultRef.value
                       else "level-results/" + ticket.trialId + ".json";
      var recorded := controller.RecordResult(ticket.trialId, result.primary, result.failure, resultRef);
      RecordAdds(c, open, result, resultRef);
      r := Ok(result);
    }

    /** `run`, from a fresh controller or a checkpoint without an open trial. It ends because every
        trial spends budget; only an injector factory or evaluator that raises, or an evaluator that
        answers for another trial or with an unknown status, can stop it early. */
    method Run() returns (r: Result<seq<Evaluation>, OrchestratorError>)
      requires Sound(controller.config.episode) && Ready(controller.config, controller.state)
      requires controller.saved == controller.state && reports == []
      modifies this`reports, controller
      ensures Reachable(controller.config, controller.state) && controller.saved == controller.state
      ensures |reports| <= controller.config.episode.totalRetryBudget - old(controller.state.totalAttempts)
      ensures AllLeftClean(adapters, reports)
      ensures r.Ok? ==> controller.state.status != ACTIVE && |r.value| == |reports|
      ensures r.Ok? ==> Recounts(old(controller.state.history), r.value, controller.state.history)
      ensures r.Err? ==> controller.state.openTrial.Some? && AdapterFault(adapters, controller.state.openTrial.value, r.error)
    {
      var results: seq<Evaluation> := [];
      ghost var c, before := controller.config, controller.state;
      ReachableIsAccounted(c, before);
      while controller.state.status == ACTIVE
        invariant Ready(c, controller.state) && controller.saved == controller.state
        invariant controller.state.totalAttempts <= c.episode.totalRetryBudget
        invariant |reports| == |results| == controller.state.totalAttempts - before.totalAttempts
        invariant AllLeftClean(adapters, reports)
        invariant Recounts(before.history, results, controller.state.history)
        decreases c.episode.totalRetryBudget - controller.state.totalAttempts
      {
        ghost var was := controller.state.history;
        var outcome := RunTrial();
        if outcome.Err? { return Err(outcome.error); }
        OneMoreResult(before.history, results, was, controller.state.history, outcome.value);
        results := results + [outcome.value];
      }
      r := Ok(results);
    }
  }

  /** A controller some run reached, with no trial open. */
  ghost predicate Ready(c: Config, s: State) {
    Reachable(c, s) && s.openTrial.None?
  }

  /** What the loop holds against an evaluator's answer. */
  function Refusal(answer: Option<Evaluation>, t: Trial): Option<OrchestratorError> {
    if answer.None? then Some(EvaluatorRaised)
    else if !Answers(answer.value, t) then Some(ResultMismatch)
    else if answer.value.primary.Unrecognized? then Some(BadStatus)
    else None
  }

  /** An adapter stopped the run: the injector factory raised for a prepared trial, or the evaluator
      raised, answered for another trial or gave an unknown status. */
  ghost predicate AdapterFault(a: Adapters, t: Trial, error: OrchestratorError) {
    if error == FactoryRaised then a.prepares(t) && a.injectorFor(t).None?
    else exists records :: Refusal(a.evaluate(t, records), t) == Some(error)
  }

  lemma StartOpens(c: Config, s: State)
    requires Sound(c.episode) && Ready(c, s) && s.status == ACTIVE
    ensures InRange(c, s)
    ensures var (s', r) := Started(c, s);
            && r.Ok? && s'.openTrial == Some(r.value) && s'.history == s.history
            && InRange(c, s') && Reachable(c, s')
            && s'.totalAttempts == s.totalAttempts + 1 <= c.episode.totalRetryBudget
  {
    ReachableIsAccounted(c, s);
    StartIsNeverShort(c, s);
    OneMoreCall(c, s, Start);
    ReachableIsAccounted(c, Started(c, s).0);
  }

  lemma RecordAdds(c: Config, s: State, e: Evaluation, resultRef: string)
    requires InRange(c, s) && Reachable(c, s)
    requires s.openTrial.Some? && Answers(e, s.openTrial.value) && !e.primary.Unrecognized?
    ensures var s' := Recorded(c, s, s.openTrial.value.trialId, e.primary, e.failure, resultRef).0;
            && s'.openTrial.None? && s'.totalAttempts == s.totalAttempts
            && Recounts(s.history, [e], s'.history) && Reachable(c, s')
  {
    RecordedFromClosed(c, s, s.openTrial.value.trialId, e.primary, e.failure, resultRef);
    OneMoreCall(c, s, Record(s.openTrial.value.trialId, e.primary, e.failure, resultRef));
  }

  /** The history after a run is the history before it, then one agreeing entry per result. */
  ghost predicate Recounts(before: seq<Completed>, results: seq<Evaluation>, after: seq<Completed>) {
    && |after| == |before| + |results|
    && (forall k :: 0 <= k < |before| ==> after[k] == before[k])
    && forall k :: 0 <= k < |results| ==> Agrees(after[|before| + k], results[k])
  }

  lemma OneMoreResult(before: seq<Completed>, results: seq<Evaluation>, was: seq<Completed>, now: seq<Completed>, e: Evaluation)
    requires Recounts(before, results, was) && Recounts(was, [e], now)
    ensures Recounts(before, results + [e], now)
  {
    assert Agrees(now[|was| + 0], [e][0]);
  }
}
