/**
 `ExecutionWorkflow` of controller/execution_workflow.py on one run. While nothing but kills
 interrupts it, its writes are a prefix of the writes ExecutionPlan lists, wherever it stops.
 */
module ExecutionWorkflow {
  import opened Wrappers
  import opened RunContracts
  import opened RunControl
  import opened Iteration
  import opened ExecutionPlan

  /** How a stage leaves `process`: on to the next stage, or out with the finished run. */
  datatype Flow = Onward(record: Row) | Finished(record: Row)

  class ExecutionWorkflow {
    const run: Run
    /** The durable state tracking started from, and the number of planned writes since. */
    ghost var origin: Durable
    ghost var done: nat

    constructor (run: Run)
      requires run.Valid()
      ensures this.run == run && Tracked() && origin == run.D() && done == 0
    {
      this.run, origin, done := run, run.D(), 0;
    }

    ghost predicate Tracked()
      reads this, run
    {
      run.Valid() && (run.calm ==> run.D() == Iterate(Machine(run.world), origin, done))
    }

    /** A row read earlier in this call, and what it entitles the call to. */
    ghost predicate Holds(record: Row)
      reads this, run
    {
      && run.row.terminal.None?
      && (run.calm ==> run.row == record)
      && Earned(run.artifacts, record.phase)
      && (PastDiscovery(record.phase) ==> SnapshotRef in run.artifacts && BundleRef in run.artifacts)
    }

    ghost predicate Locked()
      reads this, run
    {
      Has(run.D(), MultiLevelRef) && Has(run.D(), PublicEpisodeRef)
    }

    /** An exception on its way to the handler: a planned failure, or a cleanup that did not come back. */
    ghost predicate Thrown(e: Error)
      reads this, run
    {
      && run.row.terminal.None?
      && (run.calm ==>
            if run.row.phase == CleaningUp then Next(run.D(), run.world).None?
            else PlanStages(run.D(), run.world) == Fail(e))
    }

    // ---------------------------------------------------------------- tracked writes

    /** Counts a planned write that was made. */
    ghost method Tick(before: Durable)
      requires run.calm ==> before == Iterate(Machine(run.world), origin, done)
      requires run.calm ==> run.D() == before || run.D() == Machine(run.world)(before)
      modifies this`done
      ensures run.calm ==> run.D() == Iterate(Machine(run.world), origin, done)
    {
      if run.calm && run.D() != before {
        OneMoreStep(Machine(run.world), origin, done, before, run.D());
        done := done + 1;
      }
    }

    method Record(ref: Ref, json: Json) returns (x: Exit<()>)
      requires Tracked()
      requires IsStage(ref) ==> ref !in run.artifacts
      requires run.calm ==> (ref in run.artifacts && run.artifacts[ref] == json) || Next(run.D(), run.world) == Some(Put(ref, json))
      modifies this`done, run`row, run`abortedEarly, run`schedule, run`artifacts, run`history, run`announced
      ensures run.KilledOnlyAsScheduled(x.Killed?)
      ensures Tracked() && run.Continues() && !x.Raised?
      ensures x.Done? ==> ref in run.artifacts && run.artifacts[ref] == json
      ensures run.artifacts == old(run.artifacts) || run.artifacts == old(run.artifacts)[ref := json]
    {
      ghost var before := run.D();
      if run.calm {
        if ref in run.artifacts && run.artifacts[ref] == json {
          assert before.(artifacts := before.artifacts[ref := json]) == before;
        } else {
          NextIsMachine(before, run.world, Put(ref, json));
        }
      }
      x := run.Record(ref, json);
      Tick(before);
    }

    method Advance(record: Row, next: RunPhase) returns (x: Exit<Flow>)
      requires Tracked() && Holds(record)
      requires Earned(run.artifacts, next)
      requires SnapshotRef in run.artifacts && BundleRef in run.artifacts
      requires run.calm ==> Next(run.D(), run.world) == Some(Move(next)) && next in AllowedNext(run.row.phase)
      modifies this`done, run`row, run`abortedEarly, run`schedule
      ensures run.KilledOnlyAsScheduled(x.Killed?)
      ensures Tracked() && !(x.Done? && x.value.Finished?)
      ensures x.Done? ==> Holds(x.value.record) && x.value.record.phase == next && (run.calm ==> run.row.phase == next)
      ensures x.Raised? ==> !run.calm && Thrown(x.error)
    {
      ghost var before := run.D();
      if run.calm {
        NextIsMachine(before, run.world, Move(next));
      }
      var moved := run.Advance(next);
      Tick(before);
      var r :- moved;
      x := Done(Onward(r));
    }

    /** `_finish_cleanup`: verify the cleanup once, then end the run with what it found. */
    method FinishRun() returns (x: Exit<Row>)
      requires Tracked() && run.row.phase == CleaningUp && run.row.terminal.None?
      modifies this`done, run`row, run`abortedEarly, run`schedule, run`artifacts, run`history, run`announced, run`asked
      ensures run.KilledOnlyAsScheduled(x.Killed?)
      ensures Tracked()
      ensures x.Done? ==> x.value == run.row && Has(run.D(), CleanupRef)
      ensures x.Done? ==> run.row.desired.Some?
      ensures x.Done? ==> run.row.terminal == if Recorded(run.artifacts, CleanupRef).verified then run.row.desired else Some(ResetFailed)
      ensures x.Raised? ==> run.row.phase == CleaningUp && Thrown(x.error)
    {
      var cleanup :- RunOrLoad(CleanupRef);
      ghost var before := run.D();
      if run.calm {
        NextIsMachine(before, run.world, Close(cleanup.verified));
      }
      x := run.CloseCleanup(cleanup.verified);
      Tick(before);
    }

    /** `_request_and_finish`. */
    method RequestAndFinish(status: TerminalStatus) returns (x: Exit<Flow>)
      requires Tracked() && run.row.terminal.None?
      requires !run.dryRun && status == Completed ==>
                 Deserved(run.artifacts) && SnapshotRef in run.artifacts && BundleRef in run.artifacts
      requires run.calm ==> run.row.phase != CleaningUp && Next(run.D(), run.world) == Some(Ask(status))
      modifies this`done, run`row, run`abortedEarly, run`schedule, run`artifacts, run`history, run`announced, run`asked
      ensures run.KilledOnlyAsScheduled(x.Killed?)
      ensures Tracked()
      ensures x.Done? ==> x.value.Finished? && run.row.terminal.Some?
      ensures x.Raised? ==> run.row.phase == CleaningUp && Thrown(x.error)
    {
      var current :- run.Get();
      if current.phase != CleaningUp {
        var _ :- AskCleanup(status);
      }
      var _ :- run.Get();
      var finished :- FinishRun();
      x := Done(Finished(finished));
    }

    method AskCleanup(status: TerminalStatus) returns (x: Exit<Row>)
      requires Tracked() && run.row.terminal.None?
      requires !run.dryRun && status == Completed ==>
                 Deserved(run.artifacts) && SnapshotRef in run.artifacts && BundleRef in run.artifacts
      requires run.calm ==> run.row.phase != CleaningUp && Next(run.D(), run.world) == Some(Ask(status))
      modifies this`done, run`row, run`abortedEarly, run`schedule
      ensures run.KilledOnlyAsScheduled(x.Killed?)
      ensures Tracked() && run.row.terminal.None?
      ensures x.Done? ==> run.row.phase == CleaningUp
      ensures x.Raised? ==> !run.calm && run.row.phase == CleaningUp
    {
      ghost var before := run.D();
      if run.calm {
        NextIsMachine(before, run.world, Ask(status));
      }
      x := run.AskCleanup(status);
      Tick(before);
    }

    // ---------------------------------------------------------------- reading checkpoints

    /** `_required_artifact`. */
    method Required(ref: Ref) returns (x: Exit<Report>)
      requires Tracked()
      modifies run`row, run`abortedEarly, run`schedule
      ensures run.KilledOnlyAsScheduled(x.Killed?)
      ensures Tracked() && run.Continues()
      ensures x.Done? ==> Has(run.D(), ref) && x.value == Recorded(run.artifacts, ref)
      ensures x.Raised? ==> x.error == Missing(ref) && !Has(run.D(), ref)
    {
      var value :- run.Read(ref);
      if value.None? || value.value.NonObject? { return Raised(Missing(ref)); }
      x := Done(ReportOf(value.value));
    }

    /** `_run_or_load`: a stage runs only while its result is not recorded. */
    method RunOrLoad(ref: Ref) returns (x: Exit<Report>)
      requires Tracked() && IsStage(ref)
      requires run.calm && Stage(run.D(), run.world, ref).ToRecord? ==>
                 Next(run.D(), run.world) == Some(Put(ref, Object(Stage(run.D(), run.world, ref).report)))
      modifies this`done, run`row, run`abortedEarly, run`schedule, run`artifacts, run`history, run`announced, run`asked
      ensures run.KilledOnlyAsScheduled(x.Killed?)
      ensures Tracked() && run.Continues()
      ensures x.Done? ==> Has(run.D(), ref) && x.value == Recorded(run.artifacts, ref)
      ensures run.artifacts == old(run.artifacts) ||
              (ref !in old(run.artifacts) && ref in run.artifacts && run.artifacts == old(run.artifacts)[ref := run.artifacts[ref]])
      ensures x.Raised? ==> run.artifacts == old(run.artifacts)
      ensures x.Raised? && run.calm ==> Stage(run.D(), run.world, ref) == Broken(x.error)
    {
      var existing :- run.Read(ref);
      if existing.Some? {
        if existing.value.NonObject? { return Raised(CheckpointNotObject(ref)); }
        return Done(ReportOf(existing.value));
      }
      x := RunStage(ref);
    }

    /** A stage whose result is not recorded: run it and record what it returns. */
    method RunStage(ref: Ref) returns (x: Exit<Report>)
      requires Tracked() && IsStage(ref) && ref !in run.artifacts
      requires run.calm && Stage(run.D(), run.world, ref).ToRecord? ==>
                 Next(run.D(), run.world) == Some(Put(ref, Object(Stage(run.D(), run.world, ref).report)))
      modifies this`done, run`row, run`abortedEarly, run`schedule, run`artifacts, run`history, run`announced, run`asked
      ensures run.KilledOnlyAsScheduled(x.Killed?)
      ensures Tracked() && run.Continues()
      ensures x.Done? ==> ref in run.artifacts && run.artifacts[ref] == Object(x.value)
      ensures run.artifacts == old(run.artifacts) ||
              (ref in run.artifacts && run.artifacts == old(run.artifacts)[ref := run.artifacts[ref]])
      ensures x.Raised? ==> run.artifacts == old(run.artifacts)
      ensures x.Raised? && run.calm ==> Stage(run.D(), run.world, ref) == Broken(x.error)
    {
      var result :- run.Call(ref);
      match result
      case Raises => x := Raised(StageRaised(ref));
      case ReturnsNonMapping => x := Raised(StageNotMapping(ref));
      case Returns(report) =>
        var _ :- Record(ref, Object(report));
        x := Done(report);
    }

    // ---------------------------------------------------------------- the stages of `process`

    method Baseline(record: Row) returns (x: Exit<Flow>)
      requires Tracked() && Holds(record) && Locked() && record.phase == Baselining
      modifies this`done, run`row, run`abortedEarly, run`schedule, run`artifacts, run`history, run`announced, run`asked
      ensures run.KilledOnlyAsScheduled(x.Killed?)
      ensures Tracked()
      ensures x.Done? && x.value.Onward? ==>
                Holds(x.value.record) && Locked() && x.value.record.phase == Executing && Has(run.D(), BaselineRef)
      ensures x.Done? && x.value.Finished? ==> run.row.terminal.Some?
      ensures x.Raised? ==> Thrown(x.error)
    {
      var baseline :- BaselineReport(record);
      if !baseline.qualified {
        x := RequestAndFinish(CaseInvalid);
        return;
      }
      x := Advance(record, Executing);
    }

    /** The lease, and then the baseline stage or its record. */
    method BaselineReport(record: Row) returns (x: Exit<Report>)
      requires Tracked() && Holds(record) && Locked() && record.phase == Baselining
      modifies this`done, run`row, run`abortedEarly, run`schedule, run`artifacts, run`history, run`announced, run`asked
      ensures run.KilledOnlyAsScheduled(x.Killed?)
      ensures Tracked()
      ensures x.Done? ==> Holds(record) && Locked() && Has(run.D(), BaselineRef) && x.value == Recorded(run.artifacts, BaselineRef)
      ensures x.Done? && run.calm ==>
                Next(run.D(), run.world) == Some(if x.value.qualified then Move(Executing) else ExecutionPlan.Ask(CaseInvalid))
      ensures x.Raised? ==> Thrown(x.error)
    {
      var _ :- run.AcquireLease();
      if run.calm { BaseliningPlans(run.D(), run.world); }
      x := RunOrLoad(BaselineRef);
      if run.calm { BaseliningPlans(run.D(), run.world); }
    }

    method Execute(record: Row) returns (x: Exit<Flow>)
      requires Tracked() && Holds(record) && Locked() && record.phase == Executing && Has(run.D(), BaselineRef)
      modifies this`done, run`row, run`abortedEarly, run`schedule, run`artifacts, run`history, run`announced, run`asked
      ensures run.KilledOnlyAsScheduled(x.Killed?)
      ensures Tracked() && !(x.Done? && x.value.Finished?)
      ensures x.Done? ==> Holds(x.value.record) && Locked() && x.value.record.phase == Recovering
                          && Has(run.D(), BaselineRef) && Has(run.D(), ExecutionRef)
      ensures x.Raised? ==> Thrown(x.error)
    {
      if run.calm { ExecutingPlans(run.D(), run.world); }
      var _ :- RunOrLoad(ExecutionRef);
      if run.calm { ExecutingPlans(run.D(), run.world); }
      x := Advance(record, Recovering);
    }

    method Recover(record: Row) returns (x: Exit<Flow>)
      requires Tracked() && Holds(record) && Locked() && record.phase == Recovering
      requires Has(run.D(), BaselineRef) && Has(run.D(), ExecutionRef)
      modifies this`done, run`row, run`abortedEarly, run`schedule, run`artifacts, run`history, run`announced, run`asked
      ensures run.KilledOnlyAsScheduled(x.Killed?)
      ensures Tracked()
      ensures x.Done? && x.value.Onward? ==>
                && Holds(x.value.record) && Locked() && x.value.record.phase == Evaluating
                && Has(run.D(), BaselineRef) && Has(run.D(), ExecutionRef) && Has(run.D(), RecoveryRef)
      ensures x.Done? && x.value.Finished? ==> run.row.terminal.Some?
      ensures x.Raised? ==> Thrown(x.error)
    {
      if run.calm { RecoveringPlans(run.D(), run.world); }
      var recovery :- RunOrLoad(RecoveryRef);
      if run.calm { RecoveringPlans(run.D(), run.world); }
      if !recovery.verified {
        x := RequestAndFinish(ResetFailed);
        return;
      }
      x := Advance(record, Evaluating);
    }

    method Evaluate(record: Row) returns (x: Exit<Flow>)
      requires Tracked() && Holds(record) && Locked() && record.phase == Evaluating
      requires Has(run.D(), BaselineRef) && Has(run.D(), ExecutionRef) && Has(run.D(), RecoveryRef)
      modifies this`done, run`row, run`abortedEarly, run`schedule, run`artifacts, run`history, run`announced, run`asked
      ensures run.KilledOnlyAsScheduled(x.Killed?)
      ensures Tracked() && !(x.Done? && x.value.Finished?)
      ensures x.Done? ==>
                && Holds(x.value.record) && Locked() && x.value.record.phase == RunPhase.Scoring
                && Has(run.D(), BaselineRef) && Has(run.D(), ExecutionRef) && Has(run.D(), RecoveryRef)
                && Has(run.D(), EvaluationRef)
      ensures x.Raised? ==> Thrown(x.error)
    {
      if run.calm { EvaluatingPlans(run.D(), run.world); }
      var evaluation :- RunOrLoad(EvaluationRef);
      if run.calm { EvaluatingPlans(run.D(), run.world); }
      if !evaluation.independent { return Raised(NotIndependent); }
      x := Advance(record, RunPhase.Scoring);
    }

    method Score(record: Row) returns (x: Exit<Flow>)
      requires Tracked() && Holds(record) && Locked() && record.phase == RunPhase.Scoring
      requires Has(run.D(), BaselineRef) && Has(run.D(), ExecutionRef) && Has(run.D(), RecoveryRef)
      requires Has(run.D(), EvaluationRef)
      modifies this`done, run`row, run`abortedEarly, run`schedule, run`artifacts, run`history, run`announced, run`asked
      ensures run.KilledOnlyAsScheduled(x.Killed?)
      ensures Tracked()
      ensures x.Done? ==> x.value.Finished? && run.row.terminal.Some?
      ensures x.Raised? ==> Thrown(x.error)
    {
      var execution, evaluation := ReportOf(run.artifacts[ExecutionRef]), ReportOf(run.artifacts[EvaluationRef]);
      if !run.world.provisionalScoring { return Raised(ScoringDisabled); }
      if !evaluation.levels { return Raised(NoLevelResults); }
      if run.world.scoringRaises(evaluation) { return Raised(ScoringRaised); }
      var _ :- Record(ScoreRef, ScoreOf(evaluation));
      x := RequestAndFinish(if execution.passed && evaluation.passed then Completed else Failed);
    }

    /** The body of the `try` in `process`. */
    method Stages(start: Row) returns (x: Exit<Flow>)
      requires Tracked() && Holds(start) && run.row.phase != CleaningUp && start.phase != CleaningUp
      modifies this`done, run`row, run`abortedEarly, run`schedule, run`artifacts, run`history, run`announced, run`asked
      ensures run.KilledOnlyAsScheduled(x.Killed?)
      ensures Tracked()
      ensures x.Done? && x.value.Finished? ==> run.row.terminal.Some?
      ensures x.Done? && x.value.Onward? && run.calm ==> Next(run.D(), run.world).None?
      ensures x.Raised? ==> Thrown(x.error)
    {
      var record := start;
      var _ :- Required(MultiLevelRef);
      var _ :- Required(PublicEpisodeRef);
      x := LockedStages(record);
    }

    method LockedStages(start: Row) returns (x: Exit<Flow>)
      requires Tracked() && Holds(start) && Locked() && start.phase != CleaningUp
      modifies this`done, run`row, run`abortedEarly, run`schedule, run`artifacts, run`history, run`announced, run`asked
      ensures run.KilledOnlyAsScheduled(x.Killed?)
      ensures Tracked()
      ensures x.Done? && x.value.Finished? ==> run.row.terminal.Some?
      ensures x.Done? && x.value.Onward? && run.calm ==> Next(run.D(), run.world).None?
      ensures x.Raised? ==> Thrown(x.error)
    {
      var record := start;
      if record.phase == Baselining {
        var flow :- Baseline(record);
        if flow.Finished? { return Done(flow); }
        record := flow.record;
      } else {
        var _ :- Required(BaselineRef);
      }
      if record.phase == Executing {
        var flow :- Execute(record);
        record := flow.record;
      } else {
        var _ :- Required(ExecutionRef);
      }
      x := LaterStages(record);
    }

    method LaterStages(start: Row) returns (x: Exit<Flow>)
      requires Tracked() && Holds(start) && Locked() && start.phase != CleaningUp
      requires start.phase !in {Baselining, Executing} && Has(run.D(), BaselineRef) && Has(run.D(), ExecutionRef)
      modifies this`done, run`row, run`abortedEarly, run`schedule, run`artifacts, run`history, run`announced, run`asked
      ensures run.KilledOnlyAsScheduled(x.Killed?)
      ensures Tracked()
      ensures x.Done? && x.value.Finished? ==> run.row.terminal.Some?
      ensures x.Done? && x.value.Onward? && run.calm ==> Next(run.D(), run.world).None?
      ensures x.Raised? ==> Thrown(x.error)
    {
      var record := start;
      if record.phase == Recovering {
        var flow :- Recover(record);
        if flow.Finished? { return Done(flow); }
        record := flow.record;
      } else {
        var _ :- Required(RecoveryRef);
      }
      if record.phase == Evaluating {
        var flow :- Evaluate(record);
        record := flow.record;
      } else {
        var _ :- Required(EvaluationRef);
      }
      if record.phase == RunPhase.Scoring {
        x := Score(record);
        return;
      }
      x := Done(Onward(record));
    }

    method NoteAndAsk(e: Error) returns (x: Exit<Row>)
      requires Tracked() && Thrown(e) && (run.calm ==> run.row.phase != CleaningUp)
      modifies this`done, run`row, run`abortedEarly, run`schedule, run`artifacts, run`history, run`announced
      ensures run.KilledOnlyAsScheduled(x.Killed?)
      ensures Tracked() && run.row.terminal.None?
      ensures x.Done? ==> run.row.phase == CleaningUp
      ensures x.Raised? ==> !run.calm
    {
      if run.calm {
        FailureIsNotedThenAsked(run.D(), run.world, e);
      }
      ghost var before := run.D();
      var _ :- Record(ExecutionFailureRef, FailureNote(e));
      assert run.calm ==> run.D() == before.(artifacts := before.artifacts[ExecutionFailureRef := FailureNote(e)]);
      x := AskCleanup(Failed);
    }

    /** The exception handler of `process`: note the failure, ask for cleanup unless it was asked for, clean up. */
    method Handle(e: Error) returns (x: Exit<Row>)
      requires Tracked() && Thrown(e)
      modifies this`done, run`row, run`abortedEarly, run`schedule, run`artifacts, run`history, run`announced, run`asked
      ensures run.KilledOnlyAsScheduled(x.Killed?)
      ensures Tracked()
      ensures x.Done? ==> x.value == run.row && run.row.terminal.Some?
      ensures run.calm && !x.Killed? ==> Next(run.D(), run.world).None?
    {
      var current :- run.Get();
      if current.phase != CleaningUp {
        var _ :- NoteAndAsk(e);
      }
      var _ :- run.Get();
      x := FinishRun();
    }

    /**
     `process`: whatever is killed or aborted on the way, the run stays safe and its checkpoints
     are used once; without aborts it has made a prefix of the planned writes, all of them unless killed.
     */
    method Process() returns (x: Exit<Row>)
      requires Tracked()
      modifies this`done, run`row, run`abortedEarly, run`schedule, run`artifacts, run`history, run`announced, run`asked
      ensures run.KilledOnlyAsScheduled(x.Killed?)
      ensures Tracked()
      ensures run.calm && !x.Killed? ==> Next(run.D(), run.world).None?
    {
      var record :- run.Get();
      if record.terminal.Some? { return Done(record); }
      if record.phase == CleaningUp {
        x := FinishRun();
        return;
      }
      var flow := Stages(record);
      match flow
      case Done(f) => x := Done(f.record);
      case Killed => x := Killed;
      case Raised(e) => x := Handle(e);
    }
  }

  /**
   Crash equivalence: kill `process` at any durable step, any number of times, and run it again.
   Once one call is allowed to finish, the row, the checkpoints and the terminal status are those
   of a single uninterrupted call, and no stage ran again after its result was recorded.
   */
  method ProcessUntilFinished(run: Run, killed: seq<seq<Pause>>)
    requires run.Valid() && run.calm
    requires forall attempt :: attempt in killed ==> AbortFirst !in attempt
    modifies run
    ensures run.Valid()
    ensures run.D() == Final(old(run.D()), run.world)
    ensures run.row.terminal == Verdict(old(run.D()), run.world)
    ensures NeverRepeated(run.history)
  {
    var workflow := new ExecutionWorkflow(run);
    for i := 0 to |killed|
      invariant run.calm && workflow.run == run && workflow.Tracked() && workflow.origin == old(run.D())
    {
      run.schedule := killed[i];
      var _ := workflow.Process();
    }
    run.schedule := [];
    var x := workflow.Process();
    OneEnd(workflow.origin, run.world, workflow.done);
    VerdictIsReached(workflow.origin, run.world);
  }
}
