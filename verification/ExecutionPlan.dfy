/**
 The stage machine of controller/execution_workflow.py as a function of durable state: which
 write a `process` call makes next, where the writes end, and which terminal status that is.
 */
module ExecutionPlan {
  import opened Wrappers
  import opened RunContracts
  import opened RunControl
  import opened Iteration

  // ---------------------------------------------------------------- durable state and writes

  datatype Write = Put(ref: Ref, json: Json) | Move(next: RunPhase) | Ask(status: TerminalStatus) | Close(verified: bool)

  function Apply(d: Durable, w: Write): Durable {
    match w
    case Put(ref, json) => d.(artifacts := d.artifacts[ref := json])
    case Move(next) => d.(row := Act(d.row, ToAdvance(next)))
    case Ask(status) => d.(row := Act(d.row, ToRequestCleanup(status, false)))
    case Close(verified) => d.(row := Act(d.row, ToFinishCleanup(verified)))
  }

  predicate Has(d: Durable, ref: Ref) {
    ref in d.artifacts && !d.artifacts[ref].NonObject?
  }

  datatype StageView = Stored(report: Report) | ToRecord(report: Report) | Broken(error: Error)

  /** What `_run_or_load` is about to do for a stage. */
  function Stage(d: Durable, w: World, ref: Ref): StageView {
    if ref in d.artifacts then
      if d.artifacts[ref].NonObject? then Broken(CheckpointNotObject(ref)) else StageView.Stored(ReportOf(d.artifacts[ref]))
    else
      match w.stage(ref, 0)
      case Returns(report) => ToRecord(report)
      case ReturnsNonMapping => Broken(StageNotMapping(ref))
      case Raises => Broken(StageRaised(ref))
  }

  datatype Plan = Do(write: Write) | Fail(error: Error) | Stop

  function PlanScoring(d: Durable, w: World): Plan
    requires Has(d, ExecutionRef) && Has(d, EvaluationRef)
  {
    var execution, evaluation := ReportOf(d.artifacts[ExecutionRef]), ReportOf(d.artifacts[EvaluationRef]);
    if !w.provisionalScoring then Fail(ScoringDisabled)
    else if !evaluation.levels then Fail(NoLevelResults)
    else if w.scoringRaises(evaluation) then Fail(ScoringRaised)
    else if ScoreRef !in d.artifacts || d.artifacts[ScoreRef] != ScoreOf(evaluation) then
      Do(Put(ScoreRef, ScoreOf(evaluation)))
    else Do(Ask(if execution.passed && evaluation.passed then Completed else Failed))
  }

  /** The next state-changing write of the stage machine, decided from the durable state alone. */
  function PlanStages(d: Durable, w: World): Plan {
    if !Has(d, MultiLevelRef) then Fail(Missing(MultiLevelRef))
    else if !Has(d, PublicEpisodeRef) then Fail(Missing(PublicEpisodeRef))
    else if d.row.phase == Baselining then
      (match Stage(d, w, BaselineRef)
       case Broken(e) => Fail(e)
       case ToRecord(r) => Do(Put(BaselineRef, Object(r)))
       case Stored(r) => Do(if r.qualified then Move(Executing) else Ask(CaseInvalid)))
    else if !Has(d, BaselineRef) then Fail(Missing(BaselineRef))
    else if d.row.phase == Executing then
      (match Stage(d, w, ExecutionRef)
       case Broken(e) => Fail(e)
       case ToRecord(r) => Do(Put(ExecutionRef, Object(r)))
       case Stored(r) => Do(Move(Recovering)))
    else if !Has(d, ExecutionRef) then Fail(Missing(ExecutionRef))
    else if d.row.phase == Recovering then
      (match Stage(d, w, RecoveryRef)
       case Broken(e) => Fail(e)
       case ToRecord(r) => Do(Put(RecoveryRef, Object(r)))
       case Stored(r) => Do(if r.verified then Move(Evaluating) else Ask(ResetFailed)))
    else if !Has(d, RecoveryRef) then Fail(Missing(RecoveryRef))
    else if d.row.phase == Evaluating then
      (match Stage(d, w, EvaluationRef)
       case Broken(e) => Fail(e)
       case ToRecord(r) => Do(Put(EvaluationRef, Object(r)))
       case Stored(r) => if r.independent then Do(Move(RunPhase.Scoring)) else Fail(NotIndependent))
    else if !Has(d, EvaluationRef) then Fail(Missing(EvaluationRef))
    else if d.row.phase == RunPhase.Scoring then PlanScoring(d, w)
    else Stop
  }

  /** The next write of a fresh `process` call; None when such a call would change nothing. */
  function Next(d: Durable, w: World): Option<Write> {
    if d.row.terminal.Some? then None
    else if d.row.phase == CleaningUp then
      match Stage(d, w, CleanupRef)
      case Broken(_) => None
      case ToRecord(r) => Some(Put(CleanupRef, Object(r)))
      case Stored(r) => Some(Close(r.verified))
    else
      match PlanStages(d, w)
      case Stop => None
      case Do(write) => Some(write)
      case Fail(e) =>
        if ExecutionFailureRef in d.artifacts && d.artifacts[ExecutionFailureRef] == FailureNote(e) then Some(Ask(Failed))
        else Some(Put(ExecutionFailureRef, FailureNote(e)))
  }

  function After(d: Durable, w: World): Durable {
    if Next(d, w).None? then d else Apply(d, Next(d, w).value)
  }

  function Machine(w: World): Durable -> Durable {
    d => After(d, w)
  }

  lemma NextIsMachine(d: Durable, w: World, write: Write)
    requires Next(d, w) == Some(write)
    ensures Machine(w)(d) == Apply(d, write)
  {
  }

  /** What is planned in EVALUATING, once everything before it is recorded. */
  lemma EvaluatingPlans(d: Durable, w: World)
    requires d.row.terminal.None? && d.row.phase == Evaluating && Has(d, MultiLevelRef) && Has(d, PublicEpisodeRef)
    requires Has(d, BaselineRef) && Has(d, ExecutionRef) && Has(d, RecoveryRef)
    ensures var stage := Stage(d, w, EvaluationRef);
            && (stage.ToRecord? ==> Next(d, w) == Some(Put(EvaluationRef, Object(stage.report))))
            && (stage.Broken? ==> PlanStages(d, w) == Fail(stage.error))
            && (stage.Stored? && !stage.report.independent ==> PlanStages(d, w) == Fail(NotIndependent))
            && (stage.Stored? && stage.report.independent ==> Next(d, w) == Some(Move(RunPhase.Scoring)))
  {
  }

  /** What is planned in BASELINING on a locked run. */
  lemma BaseliningPlans(d: Durable, w: World)
    requires d.row.terminal.None? && d.row.phase == Baselining && Has(d, MultiLevelRef) && Has(d, PublicEpisodeRef)
    ensures var stage := Stage(d, w, BaselineRef);
            && (stage.ToRecord? ==> Next(d, w) == Some(Put(BaselineRef, Object(stage.report))))
            && (stage.Broken? ==> PlanStages(d, w) == Fail(stage.error))
            && (stage.Stored? ==> Next(d, w) == Some(if stage.report.qualified then Move(Executing) else Ask(CaseInvalid)))
  {
  }

  /** What is planned in EXECUTING, once everything before it is recorded. */
  lemma ExecutingPlans(d: Durable, w: World)
    requires d.row.terminal.None? && d.row.phase == Executing && Has(d, MultiLevelRef) && Has(d, PublicEpisodeRef)
    requires Has(d, BaselineRef)
    ensures var stage := Stage(d, w, ExecutionRef);
            && (stage.ToRecord? ==> Next(d, w) == Some(Put(ExecutionRef, Object(stage.report))))
            && (stage.Broken? ==> PlanStages(d, w) == Fail(stage.error))
            && (stage.Stored? ==> Next(d, w) == Some(Move(Recovering)))
  {
  }

  /** What is planned in RECOVERING, once everything before it is recorded. */
  lemma RecoveringPlans(d: Durable, w: World)
    requires d.row.terminal.None? && d.row.phase == Recovering && Has(d, MultiLevelRef) && Has(d, PublicEpisodeRef)
    requires Has(d, BaselineRef) && Has(d, ExecutionRef)
    ensures var stage := Stage(d, w, RecoveryRef);
            && (stage.ToRecord? ==> Next(d, w) == Some(Put(RecoveryRef, Object(stage.report))))
            && (stage.Broken? ==> PlanStages(d, w) == Fail(stage.error))
            && (stage.Stored? ==> Next(d, w) == Some(if stage.report.verified then Move(Evaluating) else Ask(ResetFailed)))
  {
  }

  // ---------------------------------------------------------------- the writes end

  /** An upper bound on the writes a `process` call still has to make. */
  function Left(d: Durable, w: World): nat {
    if d.row.terminal.Some? then 0
    else if d.row.phase == CleaningUp then if CleanupRef in d.artifacts then 1 else 2
    else
      match PlanStages(d, w)
      case Stop => 0
      case Fail(e) =>
        if ExecutionFailureRef in d.artifacts && d.artifacts[ExecutionFailureRef] == FailureNote(e) then 3 else 4
      case Do(Put(ref, _)) => 6 + 3 * (10 - if d.row.phase == CleaningUp then 10 else Depth(d.row.phase))
      case Do(_) => 5 + 3 * (10 - if d.row.phase == CleaningUp then 10 else Depth(d.row.phase))
  }

  /** The stages read neither the row beyond its phase nor the failure artifact. */
  lemma NotesAreNotRead(d: Durable, w: World, note: Json)
    ensures PlanStages(d.(artifacts := d.artifacts[ExecutionFailureRef := note]), w) == PlanStages(d, w)
  {
  }

  lemma FailuresRunOut(d: Durable, w: World)
    requires ValidRow(d.row) && d.row.terminal.None? && d.row.phase != CleaningUp && PlanStages(d, w).Fail?
    ensures Left(After(d, w), w) < Left(d, w) && ValidRow(After(d, w).row)
  {
    var e := PlanStages(d, w).error;
    if ExecutionFailureRef in d.artifacts && d.artifacts[ExecutionFailureRef] == FailureNote(e) {
      assert After(d, w) == Apply(d, Ask(Failed));
      assert After(d, w).row.phase == CleaningUp;
    } else {
      NotesAreNotRead(d, w, FailureNote(e));
      assert After(d, w) == Apply(d, Put(ExecutionFailureRef, FailureNote(e)));
    }
  }

  /** A planned failure is noted once, and noting it changes nothing the stages read. */
  lemma FailureIsNotedThenAsked(d: Durable, w: World, e: Error)
    requires d.row.terminal.None? && d.row.phase != CleaningUp && PlanStages(d, w) == Fail(e)
    ensures (ExecutionFailureRef in d.artifacts && d.artifacts[ExecutionFailureRef] == FailureNote(e))
            || Next(d, w) == Some(Put(ExecutionFailureRef, FailureNote(e)))
    ensures Next(d.(artifacts := d.artifacts[ExecutionFailureRef := FailureNote(e)]), w) == Some(Ask(Failed))
  {
    var noted := d.(artifacts := d.artifacts[ExecutionFailureRef := FailureNote(e)]);
    NotesAreNotRead(d, w, FailureNote(e));
  }

  lemma FilesRunOut(d: Durable, w: World)
    requires ValidRow(d.row) && d.row.terminal.None? && d.row.phase != CleaningUp
    requires PlanStages(d, w).Do? && PlanStages(d, w).write.Put?
    ensures Left(After(d, w), w) < Left(d, w) && ValidRow(After(d, w).row)
  {
    var after := After(d, w);
    assert after.row == d.row;
    assert !(PlanStages(after, w).Do? && PlanStages(after, w).write.Put?);
  }

  lemma AskingRunsOut(d: Durable, w: World)
    requires ValidRow(d.row) && d.row.terminal.None? && d.row.phase != CleaningUp
    requires PlanStages(d, w).Do? && PlanStages(d, w).write.Ask?
    ensures Left(After(d, w), w) < Left(d, w) && ValidRow(After(d, w).row)
  {
    assert After(d, w).row.phase == CleaningUp;
  }

  /** The stages move on by one allowed edge, to a phase from which less is left. */
  lemma MovesGoDeeper(d: Durable, w: World)
    requires ValidRow(d.row) && d.row.terminal.None? && d.row.phase != CleaningUp
    requires PlanStages(d, w).Do? && PlanStages(d, w).write.Move?
    ensures var row := After(d, w).row;
            ValidRow(row) && row.terminal.None? && row.phase != CleaningUp && Depth(d.row.phase) < Depth(row.phase)
  {
  }

  lemma PlansAreBounded(d: Durable, w: World)
    requires d.row.terminal.None? && d.row.phase != CleaningUp
    ensures Left(d, w) <= 6 + 3 * (10 - Depth(d.row.phase))
    ensures PlanStages(d, w).Do? ==> 5 + 3 * (10 - Depth(d.row.phase)) <= Left(d, w)
  {
  }

  lemma MovesRunOut(d: Durable, w: World)
    requires ValidRow(d.row) && d.row.terminal.None? && d.row.phase != CleaningUp
    requires PlanStages(d, w).Do? && PlanStages(d, w).write.Move?
    ensures Left(After(d, w), w) < Left(d, w) && ValidRow(After(d, w).row)
  {
    MovesGoDeeper(d, w);
    PlansAreBounded(d, w);
    PlansAreBounded(After(d, w), w);
  }

  lemma WritesRunOut(d: Durable, w: World)
    requires ValidRow(d.row) && Next(d, w).Some?
    ensures Left(After(d, w), w) < Left(d, w) && ValidRow(After(d, w).row)
  {
    if d.row.phase != CleaningUp {
      if PlanStages(d, w).Fail? {
        FailuresRunOut(d, w);
      } else if PlanStages(d, w).write.Put? {
        FilesRunOut(d, w);
      } else if PlanStages(d, w).write.Ask? {
        AskingRunsOut(d, w);
      } else {
        MovesRunOut(d, w);
      }
    }
  }

  /** Where a process that is never interrupted ends. */
  function Final(d: Durable, w: World): Durable {
    Iterate(Machine(w), d, Left(d, w))
  }

  /** Each step writes something and leaves less to write, or there is nothing to write. */
  lemma StepsRunOut(d: Durable, w: World)
    requires ValidRow(d.row)
    ensures ValidRow(After(d, w).row)
    ensures if Next(d, w).None? then After(d, w) == d else Left(After(d, w), w) < Left(d, w)
  {
    if Next(d, w).Some? {
      WritesRunOut(d, w);
    }
  }

  function Rows(): Durable -> bool {
    (d: Durable) => ValidRow(d.row)
  }

  function Remaining(w: World): Durable -> nat {
    (d: Durable) => Left(d, w)
  }

  lemma MachineRunsOut(w: World, d: Durable)
    requires Rows()(d)
    ensures Rows()(Machine(w)(d))
    ensures Machine(w)(d) == d || Remaining(w)(Machine(w)(d)) < Remaining(w)(d)
  {
    StepsRunOut(d, w);
  }

  lemma IterateStandsStill(d: Durable, w: World, n: nat)
    requires Rows()(d) && n >= Remaining(w)(d)
    ensures var end := Iterate(Machine(w), d, n); Rows()(end) && Machine(w)(end) == end
  {
    forall e: Durable | Rows()(e) ensures Rows()(Machine(w)(e)) && (Machine(w)(e) == e || Remaining(w)(Machine(w)(e)) < Remaining(w)(e)) {
      MachineRunsOut(w, e);
    }
    IterateKeeps(Machine(w), Rows(), d, n);
    IterateRests(Machine(w), Rows(), Remaining(w), d, n);
  }

  lemma IterateEnds(d: Durable, w: World, n: nat)
    requires ValidRow(d.row) && n >= Left(d, w)
    ensures Next(Iterate(Machine(w), d, n), w).None?
    ensures ValidRow(Iterate(Machine(w), d, n).row)
  {
    IterateStandsStill(d, w, n);
    StepsRunOut(Iterate(Machine(w), d, n), w);
  }

  /** Wherever the writes of one origin have been cut and resumed, their end is the same. */
  lemma OneEnd(d: Durable, w: World, n: nat)
    requires ValidRow(d.row) && Next(Iterate(Machine(w), d, n), w).None?
    ensures Iterate(Machine(w), d, n) == Final(d, w)
  {
    IterateEnds(d, w, Left(d, w));
    OneRestingPlace(Machine(w), d, n, Left(d, w));
  }

  // ---------------------------------------------------------------- the verdict, as a decision table

  /** The report a stage has or will have, if it can have one. */
  function Outcome(d: Durable, w: World, ref: Ref): Option<Report> {
    match Stage(d, w, ref)
    case Broken(_) => None
    case ToRecord(r) => Some(r)
    case Stored(r) => Some(r)
  }

  function AfterEvaluation(w: World, executionPassed: bool, evaluation: Option<Report>): TerminalStatus {
    if evaluation.None? || !w.provisionalScoring || !evaluation.value.levels || w.scoringRaises(evaluation.value) then Failed
    else if executionPassed && evaluation.value.passed then Completed
    else Failed
  }

  function FromEvaluating(d: Durable, w: World, executionPassed: bool): TerminalStatus {
    var evaluation := Outcome(d, w, EvaluationRef);
    if evaluation.None? || !evaluation.value.independent then Failed
    else AfterEvaluation(w, executionPassed, evaluation)
  }

  function FromRecovering(d: Durable, w: World, executionPassed: bool): TerminalStatus {
    var recovery := Outcome(d, w, RecoveryRef);
    if recovery.None? then Failed
    else if !recovery.value.verified then ResetFailed
    else FromEvaluating(d, w, executionPassed)
  }

  function FromExecuting(d: Durable, w: World): TerminalStatus {
    var execution := Outcome(d, w, ExecutionRef);
    if execution.None? then Failed else FromRecovering(d, w, execution.value.passed)
  }

  function FromBaselining(d: Durable, w: World): TerminalStatus {
    var baseline := Outcome(d, w, BaselineRef);
    if baseline.None? then Failed
    else if !baseline.value.qualified then CaseInvalid
    else FromExecuting(d, w)
  }

  /** The status the stages ask cleanup for; None for a phase the execution does not touch. */
  function StageVerdict(d: Durable, w: World): Option<TerminalStatus> {
    if !Has(d, MultiLevelRef) || !Has(d, PublicEpisodeRef) then Some(Failed)
    else if d.row.phase == Baselining then Some(FromBaselining(d, w))
    else if !Has(d, BaselineRef) then Some(Failed)
    else if d.row.phase == Executing then Some(FromExecuting(d, w))
    else if !Has(d, ExecutionRef) then Some(Failed)
    else
      var passed := ReportOf(d.artifacts[ExecutionRef]).passed;
      if d.row.phase == Recovering then Some(FromRecovering(d, w, passed))
      else if !Has(d, RecoveryRef) then Some(Failed)
      else if d.row.phase == Evaluating then Some(FromEvaluating(d, w, passed))
      else if !Has(d, EvaluationRef) then Some(Failed)
      else if d.row.phase == RunPhase.Scoring then
        Some(AfterEvaluation(w, passed, Some(ReportOf(d.artifacts[EvaluationRef]))))
      else None
  }

  /** Cleanup confirms a status, turns it into RESET_FAILED, or never comes back. */
  function CleanVerdict(d: Durable, w: World, wanted: TerminalStatus): Option<TerminalStatus> {
    match Outcome(d, w, CleanupRef)
    case None => None
    case Some(cleanup) => Some(if cleanup.verified then wanted else ResetFailed)
  }

  /** The terminal status a run will have, read off the recorded and still outstanding reports. */
  function Verdict(d: Durable, w: World): Option<TerminalStatus> {
    if d.row.terminal.Some? then d.row.terminal
    else if d.row.phase == CleaningUp then
      if d.row.desired.None? then None else CleanVerdict(d, w, d.row.desired.value)
    else
      var wanted := StageVerdict(d, w);
      if wanted.None? then None else CleanVerdict(d, w, wanted.value)
  }

  lemma CleanupKeepsVerdict(d: Durable, w: World)
    requires ValidRow(d.row) && Next(d, w).Some? && d.row.phase == CleaningUp
    ensures Verdict(After(d, w), w) == Verdict(d, w)
  {
  }

  lemma FailureKeepsVerdict(d: Durable, w: World)
    requires ValidRow(d.row) && d.row.terminal.None? && d.row.phase != CleaningUp && PlanStages(d, w).Fail?
    ensures Verdict(After(d, w), w) == Verdict(d, w)
  {
    assert StageVerdict(d, w) == Some(Failed);
    if Next(d, w).value.Put? {
      assert StageVerdict(After(d, w), w) == StageVerdict(d, w);
    }
  }

  /** Recording what a stage returned does not change what it is known to return. */
  lemma RecordingKeepsOutcomes(d: Durable, w: World, ref: Ref, report: Report, passed: bool)
    requires Stage(d, w, ref) == ToRecord(report)
    ensures var after := d.(artifacts := d.artifacts[ref := Object(report)]);
            && (forall other :: Outcome(after, w, other) == Outcome(d, w, other))
            && FromBaselining(after, w) == FromBaselining(d, w)
            && FromExecuting(after, w) == FromExecuting(d, w)
            && FromRecovering(after, w, passed) == FromRecovering(d, w, passed)
            && FromEvaluating(after, w, passed) == FromEvaluating(d, w, passed)
  {
    var after := d.(artifacts := d.artifacts[ref := Object(report)]);
    forall other ensures Outcome(after, w, other) == Outcome(d, w, other) {
      assert Stage(after, w, other) == if other == ref then StageView.Stored(report) else Stage(d, w, other);
    }
  }

  lemma RecordingKeepsStages(d: Durable, w: World)
    requires d.row.terminal.None? && d.row.phase != CleaningUp
    requires PlanStages(d, w).Do? && PlanStages(d, w).write.Put? && PlanStages(d, w).write.ref != ScoreRef
    ensures var after := Apply(d, PlanStages(d, w).write);
            StageVerdict(after, w) == StageVerdict(d, w) && Outcome(after, w, CleanupRef) == Outcome(d, w, CleanupRef)
  {
    var put := PlanStages(d, w).write;
    assert Stage(d, w, put.ref) == ToRecord(put.json.report) && put.json.Object?;
    RecordingKeepsOutcomes(d, w, put.ref, put.json.report, Recorded(d.artifacts, ExecutionRef).passed);
  }

  lemma ScoreIsNotRead(d: Durable, w: World, json: Json)
    ensures var after := d.(artifacts := d.artifacts[ScoreRef := json]);
            StageVerdict(after, w) == StageVerdict(d, w) && Outcome(after, w, CleanupRef) == Outcome(d, w, CleanupRef)
  {
  }

  lemma FileKeepsVerdict(d: Durable, w: World)
    requires ValidRow(d.row) && d.row.terminal.None? && d.row.phase != CleaningUp
    requires PlanStages(d, w).Do? && PlanStages(d, w).write.Put?
    ensures Verdict(After(d, w), w) == Verdict(d, w)
  {
    var after, put := After(d, w), PlanStages(d, w).write;
    assert after == Apply(d, put);
    if put.ref == ScoreRef {
      ScoreIsNotRead(d, w, put.json);
    } else {
      RecordingKeepsStages(d, w);
    }
  }

  lemma AskKeepsVerdict(d: Durable, w: World)
    requires ValidRow(d.row) && d.row.terminal.None? && d.row.phase != CleaningUp
    requires PlanStages(d, w).Do? && PlanStages(d, w).write.Ask?
    ensures Verdict(After(d, w), w) == Verdict(d, w)
  {
    var after, status := After(d, w), PlanStages(d, w).write.status;
    assert StageVerdict(d, w) == Some(status);
    assert after.row.phase == CleaningUp && after.row.desired == Some(status) && after.row.terminal.None?;
    assert after.artifacts == d.artifacts;
    assert CleanVerdict(after, w, status) == CleanVerdict(d, w, status);
  }

  /** The stages read the artifacts of a run and not its row. */
  lemma RowsDoNotMatter(d: Durable, w: World, row: Row, passed: bool)
    ensures var moved := d.(row := row);
            && (forall ref :: Outcome(moved, w, ref) == Outcome(d, w, ref))
            && FromExecuting(moved, w) == FromExecuting(d, w)
            && FromRecovering(moved, w, passed) == FromRecovering(d, w, passed)
            && FromEvaluating(moved, w, passed) == FromEvaluating(d, w, passed)
  {
  }

  lemma MoveKeepsVerdict(d: Durable, w: World)
    requires ValidRow(d.row) && d.row.terminal.None? && d.row.phase != CleaningUp
    requires PlanStages(d, w).Do? && PlanStages(d, w).write.Move?
    ensures Verdict(After(d, w), w) == Verdict(d, w)
  {
    var after := After(d, w);
    MovesGoDeeper(d, w);
    RowsDoNotMatter(d, w, after.row, Recorded(d.artifacts, ExecutionRef).passed);
    assert after == d.(row := after.row) && after.row.phase == PlanStages(d, w).write.next;
    assert StageVerdict(after, w) == StageVerdict(d, w);
  }

  lemma WritesKeepVerdict(d: Durable, w: World)
    requires ValidRow(d.row) && Next(d, w).Some?
    ensures Verdict(After(d, w), w) == Verdict(d, w)
  {
    if d.row.phase == CleaningUp {
      CleanupKeepsVerdict(d, w);
    } else if PlanStages(d, w).Fail? {
      FailureKeepsVerdict(d, w);
    } else if PlanStages(d, w).write.Put? {
      FileKeepsVerdict(d, w);
    } else if PlanStages(d, w).write.Ask? {
      AskKeepsVerdict(d, w);
    } else {
      MoveKeepsVerdict(d, w);
    }
  }

  lemma VerdictAtTheEnd(d: Durable, w: World)
    requires ValidRow(d.row) && Next(d, w).None?
    ensures Verdict(d, w) == d.row.terminal
  {
  }

  lemma VerdictIsKept(d: Durable, w: World, n: nat)
    requires ValidRow(d.row)
    ensures ValidRow(Iterate(Machine(w), d, n).row)
    ensures Verdict(Iterate(Machine(w), d, n), w) == Verdict(d, w)
  {
    var good := (e: Durable) => ValidRow(e.row) && Verdict(e, w) == Verdict(d, w);
    forall e | good(e) ensures good(Machine(w)(e)) {
      if Next(e, w).Some? {
        WritesRunOut(e, w);
        WritesKeepVerdict(e, w);
      }
    }
    IterateKeeps(Machine(w), good, d, n);
  }

  /**
   The uninterrupted process ends in exactly the status the decision table gives, and with
   no terminal status exactly when the table has none.
   */
  lemma VerdictIsReached(d: Durable, w: World)
    requires ValidRow(d.row)
    ensures Final(d, w).row.terminal == Verdict(d, w)
  {
    VerdictIsKept(d, w, Left(d, w));
    IterateEnds(d, w, Left(d, w));
    VerdictAtTheEnd(Final(d, w), w);
  }
}
