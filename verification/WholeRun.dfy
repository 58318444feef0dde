/**
 Whole runs: any sequence of discovery and execution workers, operator approvals and operator
 aborts on one run, each worker call killed or aborted at any of its durable steps.
 */
module WholeRun {
  import opened Wrappers
  import opened RunContracts
  import opened RunControl
  import opened DiscoveryWorkflow
  import opened ExecutionPlan
  import opened ExecutionWorkflow

  datatype Command =
    | Discover(findings: Findings, schedule: seq<Pause>)
    | Execute(schedule: seq<Pause>)
    | Approve
    | AbortRun

  /** `approve_run`. */
  method ApproveRun(run: Run)
    requires run.Valid() && !run.calm
    modifies run`row, run`abortedEarly, run`schedule
    ensures run.Valid() && !run.calm
  {
    if run.row.phase == AwaitingApproval {
      var _ := run.Advance(Baselining);
    }
  }

  /**
   Whole-run safety. A run that was not a dry run ends COMPLETED only on a qualified recorded
   baseline, verified recovery, an independent evaluation, PASS from both execution and
   evaluation, and a verified cleanup. An abort accepted before cleanup began ends ABORTED or
   RESET_FAILED. No stage is executed after its result was recorded, and every audit event
   names an artifact that is there.
   */
  method Lifecycle(world: World, dryRun: bool, commands: seq<Command>) returns (run: Run)
    ensures !dryRun && run.row.terminal == Some(Completed) ==>
              && Recorded(run.artifacts, BaselineRef).qualified
              && Recorded(run.artifacts, ExecutionRef).passed
              && Recorded(run.artifacts, RecoveryRef).verified
              && Recorded(run.artifacts, EvaluationRef).independent
              && Recorded(run.artifacts, EvaluationRef).passed
              && Recorded(run.artifacts, CleanupRef).verified
    ensures run.abortedEarly ==> run.row.terminal in {None, Some(Aborted), Some(ResetFailed)}
    ensures NeverRepeated(run.history)
    ensures forall a :: a in run.announced ==> a.0 in run.artifacts
    ensures run.row.revision <= 12
  {
    run := new Run(world, dryRun);
    var discovery := new DiscoveryWorkflow(run);
    var execution := new ExecutionWorkflow(run);
    for i := 0 to |commands|
      invariant run.Valid() && !run.calm && run.dryRun == dryRun
      invariant discovery.run == run && execution.run == run
      invariant fresh(run) && fresh(discovery) && fresh(execution)
    {
      match commands[i]
      case Discover(findings, schedule) =>
        run.schedule := schedule;
        var _ := discovery.Process(findings);
      case Execute(schedule) =>
        run.schedule := schedule;
        var _ := execution.Process();
      case Approve =>
        ApproveRun(run);
      case AbortRun =>
        var _ := run.Abort();
    }
  }

  /**
   A run as an operator would see it: discovered, approved, and then executed by workers that are
   killed again and again until one finishes. What it was handed over as decides how it ends, not
   the kills.
   */
  method DiscoverAndExecute(world: World, findings: Findings, killed: seq<seq<Pause>>) returns (run: Run, ghost handed: Durable)
    requires FixedOutcomes(world) && forall attempt :: attempt in killed ==> AbortFirst !in attempt
    ensures run.Valid() && NeverRepeated(run.history)
    ensures run.D() == Final(handed, world) && run.row.terminal == Verdict(handed, world)
  {
    run := new Run(world, false);
    var discovery := new DiscoveryWorkflow(run);
    var _ := discovery.Process(findings);
    ApproveRun(run);
    run.schedule := [];
    run.calm := true;
    handed := run.D();
    ProcessUntilFinished(run, killed);
  }
}
