/**
 One run as its workflows see it: the row, the artifact files and the audit events behind
 controller/run_service.py. Every call below is one or two durable steps. Before each step the
 process may be killed, and an operator abort may be accepted: `schedule` says where.
 */
module RunControl {
  import opened Wrappers
  import opened RunContracts

  datatype Ref =
    | MultiLevelRef | PublicEpisodeRef | BaselineRef | ExecutionRef | RecoveryRef | EvaluationRef
    | ScoreRef | CleanupRef | ExecutionFailureRef
    | SnapshotRef | BundleRef | CandidatesRef | EpisodesRef | ManifestRef | AssessmentRef | ReviewRef
    | InternalPlanRef | QualificationRef | DiscoveryFailureRef

  /** The stages an execution runs once and then loads from their checkpoint. */
  predicate IsStage(ref: Ref) {
    ref in {BaselineRef, ExecutionRef, RecoveryRef, EvaluationRef, CleanupRef}
  }

  /**
   What the workflows read of a stage result: each of `qualified`, `verified`, `independent`
   is whether that entry `is True`, `passed` whether the status is "PASS", `levels` whether
   `level_results` is a list.
   */
  datatype Report = Report(qualified: bool, verified: bool, independent: bool, passed: bool, levels: bool)

  datatype Error =
    | StageRaised(ref: Ref) | StageNotMapping(ref: Ref) | CheckpointNotObject(ref: Ref) | Missing(ref: Ref)
    | LeaseHeld | NotIndependent | ScoringDisabled | NoLevelResults | ScoringRaised
    | Store(error: StoreError) | DiscoveryRaised(ref: Ref)

  /** A JSON file: a stage report, another object, or a value that is not an object. */
  datatype Json = Object(report: Report) | ScoreOf(evaluation: Report) | FailureNote(error: Error) | Note | NonObject

  function ReportOf(j: Json): Report {
    if j.Object? then j.report else Report(false, false, false, false, false)
  }

  datatype StageResult = Returns(report: Report) | ReturnsNonMapping | Raises

  /** The outside world: what the nth callback of a run does, and whether the nth lease request is granted. */
  datatype World = World(
    stage: (Ref, nat) -> StageResult,
    leaseGranted: nat -> bool,
    provisionalScoring: bool,
    scoringRaises: Report -> bool)

  /** Stage outcomes that do not depend on when they are asked for, and a lease nobody else holds. */
  ghost predicate FixedOutcomes(w: World) {
    && (forall ref, m, n :: w.stage(ref, m) == w.stage(ref, n))
    && (forall n :: w.leaseGranted(n))
  }

  datatype Pause = Proceed | Kill | AbortFirst

  datatype Exit<+T> = Done(value: T) | Raised(error: Error) | Killed {
    predicate IsFailure() { !Done? }

    function PropagateFailure<U>(): Exit<U>
      requires !Done?
    {
      if Raised? then Raised(error) else Killed
    }

    function Extract(): T
      requires Done?
    {
      value
    }
  }

  /** What survives a killed process and decides what the next one does. */
  datatype Durable = Durable(row: Row, artifacts: map<Ref, Json>)

  // ---------------------------------------------------------------- safety of one run

  /** The report recorded under a ref; all entries missing when there is none. */
  function Recorded(artifacts: map<Ref, Json>, ref: Ref): Report {
    if ref in artifacts then ReportOf(artifacts[ref]) else ReportOf(NonObject)
  }

  /** The recorded evidence an execution must have to be in a phase. */
  predicate Earned(artifacts: map<Ref, Json>, phase: RunPhase) {
    && (phase in {Executing, Recovering, Evaluating, RunPhase.Scoring} ==> Recorded(artifacts, BaselineRef).qualified)
    && (phase in {Evaluating, RunPhase.Scoring} ==> Recorded(artifacts, RecoveryRef).verified)
    && (phase == RunPhase.Scoring ==> Recorded(artifacts, EvaluationRef).independent)
  }

  /** The evidence a completed execution rests on, cleanup aside. */
  predicate Deserved(artifacts: map<Ref, Json>) {
    && Earned(artifacts, RunPhase.Scoring)
    && Recorded(artifacts, ExecutionRef).passed
    && Recorded(artifacts, EvaluationRef).passed
  }

  predicate PastDiscovery(phase: RunPhase) {
    phase in {AwaitingApproval, Baselining, Executing, Recovering, Evaluating, RunPhase.Scoring}
  }

  ghost predicate SafeRun(dryRun: bool, d: Durable, abortedEarly: bool) {
    && ValidRow(d.row)
    && Earned(d.artifacts, d.row.phase)
    && (PastDiscovery(d.row.phase) || (!dryRun && d.row.desired == Some(Completed)) ==>
          SnapshotRef in d.artifacts && BundleRef in d.artifacts)
    && (!dryRun && d.row.desired == Some(Completed) ==> Deserved(d.artifacts))
    && (!dryRun && d.row.terminal == Some(Completed) ==> Recorded(d.artifacts, CleanupRef).verified)
    && (abortedEarly ==> d.row.desired == Some(Aborted))
  }

  lemma FileKeepsSafe(dryRun: bool, d: Durable, abortedEarly: bool, ref: Ref, json: Json)
    requires SafeRun(dryRun, d, abortedEarly)
    requires IsStage(ref) ==> ref !in d.artifacts
    ensures SafeRun(dryRun, d.(artifacts := d.artifacts[ref := json]), abortedEarly)
  {
  }

  lemma MoveKeepsSafe(dryRun: bool, d: Durable, abortedEarly: bool, next: RunPhase)
    requires SafeRun(dryRun, d, abortedEarly) && Earned(d.artifacts, next)
    requires PastDiscovery(next) ==> SnapshotRef in d.artifacts && BundleRef in d.artifacts
    ensures SafeRun(dryRun, d.(row := Act(d.row, ToAdvance(next))), abortedEarly)
  {
  }

  /** What moving a row comes to, and when it is refused. */
  lemma MovedRow(row: Row, next: RunPhase)
    requires ValidRow(row)
    ensures var after := Act(row, ToAdvance(next));
            && ValidRow(after) && after.terminal == row.terminal && after.desired == row.desired
            && (RunContracts.Advance(row, next).Ok? <==> row.terminal.None? && next in AllowedNext(row.phase))
            && (RunContracts.Advance(row, next).Ok? ==> RunContracts.Advance(row, next) == Ok(after) && after.phase == next)
            && (RunContracts.Advance(row, next).Err? ==> after == row)
  {
  }

  // ---------------------------------------------------------------- the run

  datatype Deed = Called(ref: Ref) | Stored(ref: Ref)

  /** No stage is called after its result was stored. */
  ghost predicate NeverRepeated(history: seq<Deed>) {
    forall i, j :: 0 <= i < j < |history| && history[i].Stored? ==> history[j] != Called(history[i].ref)
  }

  class Run {
    const world: World
    const dryRun: bool
    var row: Row
    var artifacts: map<Ref, Json>
    /** The artifacts an audit event names, with the content it names them for. */
    var announced: set<(Ref, Json)>
    var schedule: seq<Pause>
    var asked: nat
    ghost var history: seq<Deed>
    ghost var abortedEarly: bool
    /** With `calm`, nothing but kills interrupts and the outcomes of the stages are fixed. */
    ghost var calm: bool

    ghost function D(): Durable
      reads this
    {
      Durable(row, artifacts)
    }

    /** What holds of the run whoever calls, and with whatever evidence. */
    ghost predicate Consistent()
      reads this
    {
      && ValidRow(row)
      && (abortedEarly ==> row.desired == Some(Aborted))
      && NeverRepeated(history)
      && (forall deed :: deed in history && deed.Stored? ==> deed.ref in artifacts)
      && (forall a :: a in announced ==> a.0 in artifacts)
      && (calm ==> AbortFirst !in schedule && FixedOutcomes(world))
    }

    /** A consistent run that also rests on the evidence its phase and status call for. */
    ghost predicate Valid()
      reads this
    {
      Consistent() && SafeRun(dryRun, D(), abortedEarly)
    }

    /** What no call below changes but a write to the durable state. */
    twostate predicate Continues()
      reads this
    {
      && calm == old(calm)
      && (row.desired == old(row.desired) || row.desired == Some(Aborted))
      && (old(row.phase) == CleaningUp ==> row.phase == CleaningUp && row.desired == old(row.desired))
      && (row == old(row) || row.phase == CleaningUp)
      && (old(row.terminal.Some?) ==> row == old(row))
      && row.terminal == old(row.terminal)
      && (calm ==> row == old(row))
    }

    /** A call is killed only where the schedule says so. */
    twostate predicate KilledOnlyAsScheduled(killed: bool)
      reads this
    {
      Kill !in old(schedule) ==> Kill !in schedule && !killed
    }

    constructor (world: World, dryRun: bool)
      ensures Valid() && !calm && row == FRESH_ROW && artifacts == map[] && !abortedEarly && history == [] && schedule == []
      ensures this.dryRun == dryRun && this.world == world
    {
      this.world, this.dryRun := world, dryRun;
      row, artifacts, announced, schedule, asked := FRESH_ROW, map[], {}, [], 0;
      history, abortedEarly, calm := [], false, false;
    }

    /** An accepted or refused operator abort: `request_abort`. */
    method Abort() returns (accepted: bool)
      requires Consistent() && !calm
      modifies this`row, this`abortedEarly
      ensures Consistent() && (old(Valid()) ==> Valid()) && Continues()
      ensures accepted <==> old(row.terminal.Some? || row.phase != CleaningUp || row.desired == Some(Aborted))
      ensures accepted && old(row.terminal.None?) ==> row.abortRequested
      ensures accepted && old(row.terminal.None? && row.phase != CleaningUp) ==> abortedEarly && row.phase == CleaningUp
      ensures old(abortedEarly) ==> abortedEarly
    {
      match RequestCleanup(row, Aborted, true)
      case Ok((updated, _)) =>
        ghost var early := row.terminal.None? && row.phase != CleaningUp;
        row := updated;
        abortedEarly := abortedEarly || early;
        accepted := true;
      case Err(_) =>
        accepted := false;
    }

    /** The moment before a durable step. */
    method Pausing() returns (x: Exit<()>)
      requires Consistent()
      modifies this`row, this`abortedEarly, this`schedule
      ensures KilledOnlyAsScheduled(x.Killed?)
      ensures Consistent() && (old(Valid()) ==> Valid()) && Continues() && !x.Raised?
      ensures old(abortedEarly) ==> abortedEarly
    {
      if schedule == [] { return Done(()); }
      var pause := schedule[0];
      assert pause in schedule;
      schedule := schedule[1..];
      if pause == AbortFirst {
        var _ := Abort();
      }
      x := if pause == Kill then Killed else Done(());
    }

    method Get() returns (x: Exit<Row>)
      requires Valid()
      modifies this`row, this`abortedEarly, this`schedule
      ensures KilledOnlyAsScheduled(x.Killed?)
      ensures Valid() && Continues() && !x.Raised?
      ensures x.Done? ==> x.value == row
    {
      var _ :- Pausing();
      x := Done(row);
    }

    method Read(ref: Ref) returns (x: Exit<Option<Json>>)
      requires Valid()
      modifies this`row, this`abortedEarly, this`schedule
      ensures KilledOnlyAsScheduled(x.Killed?)
      ensures Valid() && Continues() && !x.Raised?
      ensures x.Done? ==> x.value == if ref in artifacts then Some(artifacts[ref]) else None
    {
      var _ :- Pausing();
      x := Done(if ref in artifacts then Some(artifacts[ref]) else None);
    }

    /** The atomic file write of `record_json_artifact`, which replaces what is there. */
    method WriteFile(ref: Ref, json: Json) returns (x: Exit<()>)
      requires Valid()
      modifies this`row, this`abortedEarly, this`schedule, this`artifacts, this`history
      ensures KilledOnlyAsScheduled(x.Killed?)
      ensures Consistent() && Continues() && !x.Raised?
      ensures !x.Done? || !IsStage(ref) || ref !in old(artifacts) ==> Valid()
      ensures artifacts == if x.Done? then old(artifacts)[ref := json] else old(artifacts)
    {
      var _ :- Pausing();
      if IsStage(ref) ==> ref !in artifacts {
        FileKeepsSafe(dryRun, D(), abortedEarly, ref, json);
      }
      artifacts := artifacts[ref := json];
      history := history + [Stored(ref)];
      x := Done(());
    }

    /** The event of `record_json_artifact`, which the log may have already. */
    method Announce(ref: Ref) returns (x: Exit<()>)
      requires Consistent() && ref in artifacts
      modifies this`row, this`abortedEarly, this`schedule, this`announced
      ensures KilledOnlyAsScheduled(x.Killed?)
      ensures Consistent() && (old(Valid()) ==> Valid()) && Continues() && !x.Raised?
      ensures x.Done? ==> (ref, artifacts[ref]) in announced
    {
      var _ :- Pausing();
      announced := announced + {(ref, artifacts[ref])};
      x := Done(());
    }

    /** `record_json_artifact`. A kill between its two steps leaves the file without its event. Only
        replacing the result of a stage can take away the evidence a run rests on. */
    method Record(ref: Ref, json: Json) returns (x: Exit<()>)
      requires Valid()
      modifies this`row, this`abortedEarly, this`schedule, this`artifacts, this`history, this`announced
      ensures KilledOnlyAsScheduled(x.Killed?)
      ensures Consistent() && Continues() && !x.Raised?
      ensures !IsStage(ref) || ref !in old(artifacts) ==> Valid()
      ensures x.Done? ==> ref in artifacts && artifacts[ref] == json && (ref, json) in announced
      ensures artifacts == old(artifacts) || artifacts == old(artifacts)[ref := json]
    {
      var _ :- WriteFile(ref, json);
      x := Announce(ref);
    }

    /** The stage callback of one ref: it runs, whatever becomes of its result. */
    method Call(ref: Ref) returns (x: Exit<StageResult>)
      requires Valid() && ref !in artifacts
      modifies this`row, this`abortedEarly, this`schedule, this`asked, this`history
      ensures KilledOnlyAsScheduled(x.Killed?)
      ensures Valid() && Continues() && !x.Raised?
      ensures x.Done? && calm ==> x.value == world.stage(ref, 0)
    {
      var _ :- Pausing();
      x := Done(world.stage(ref, asked));
      asked := asked + 1;
      history := history + [Called(ref)];
    }

    method AcquireLease() returns (x: Exit<()>)
      requires Valid()
      modifies this`row, this`abortedEarly, this`schedule, this`asked
      ensures KilledOnlyAsScheduled(x.Killed?)
      ensures Valid() && Continues()
      ensures calm ==> !x.Raised?
      ensures x.Raised? ==> x.error in {LeaseHeld, Store(LeaseConflict)}
    {
      var _ :- Pausing();
      var granted := world.leaseGranted(asked);
      asked := asked + 1;
      x := if granted then Done(()) else Raised(LeaseHeld);
    }

    /** The evidence that `Advance` to a phase leaves a safe run. */
    ghost predicate MayEnter(next: RunPhase)
      reads this
    {
      Earned(artifacts, next) && (PastDiscovery(next) ==> SnapshotRef in artifacts && BundleRef in artifacts)
    }

    /** `transition`: along an allowed edge whatever the evidence, and safe when the phase was earned. */
    method Advance(next: RunPhase) returns (x: Exit<Row>)
      requires Valid()
      modifies this`row, this`abortedEarly, this`schedule
      ensures KilledOnlyAsScheduled(x.Killed?)
      ensures Consistent() && (old(MayEnter(next)) ==> Valid())
      ensures calm == old(calm)
      ensures row.terminal == old(row.terminal)
      ensures row.desired == old(row.desired) || row.desired == Some(Aborted)
      ensures old(row.phase) == CleaningUp ==> row.phase == CleaningUp && row.desired == old(row.desired)
      ensures x.Done? ==> x.value == row && row.phase == next && next in AllowedNext(old(row.phase)) && row.terminal.None?
      ensures x.Raised? ==> row.terminal.Some? || next !in AllowedNext(row.phase)
      ensures x.Raised? ==> row.phase == old(row.phase) || row.phase == CleaningUp
      ensures calm ==> row == if x.Done? then Act(old(row), ToAdvance(next)) else old(row)
    {
      var _ :- Pausing();
      x := Transition(next);
    }

    /** The transaction of `transition`. */
    method Transition(next: RunPhase) returns (x: Exit<Row>)
      requires Valid()
      modifies this`row
      ensures Consistent() && (MayEnter(next) ==> Valid()) && row == Act(old(row), ToAdvance(next))
      ensures row.terminal == old(row.terminal) && row.desired == old(row.desired)
      ensures x.Done? <==> row.terminal.None? && next in AllowedNext(old(row.phase))
      ensures x.Done? ==> x.value == row && row.phase == next
      ensures !x.Done? ==> x.Raised? && row == old(row)
    {
      MovedRow(row, next);
      if MayEnter(next) {
        MoveKeepsSafe(dryRun, D(), abortedEarly, next);
      }
      match RunContracts.Advance(row, next)
      case Ok(updated) =>
        row := updated;
        x := Done(row);
      case Err(e) =>
        x := Raised(Store(e));
    }

    /** The evidence that asking cleanup for a status leaves a safe run. */
    ghost predicate MayAsk(status: TerminalStatus)
      reads this
    {
      !dryRun && status == Completed ==> Deserved(artifacts) && SnapshotRef in artifacts && BundleRef in artifacts
    }

    /** `request_cleanup`: accepted unless another status stands, and safe when the status was deserved. */
    method AskCleanup(status: TerminalStatus) returns (x: Exit<Row>)
      requires Valid()
      modifies this`row, this`abortedEarly, this`schedule
      ensures KilledOnlyAsScheduled(x.Killed?)
      ensures Consistent() && (old(MayAsk(status)) ==> Valid())
      ensures calm == old(calm)
      ensures row.terminal == old(row.terminal)
      ensures old(row.phase) == CleaningUp ==> row.phase == CleaningUp && row.desired == old(row.desired)
      ensures x.Done? ==> x.value == row && row.phase == CleaningUp && (row.desired == Some(status) || row.terminal.Some?)
      ensures x.Killed? ==> row.desired == old(row.desired) || row.desired == Some(Aborted)
      ensures x.Raised? ==> row.terminal.None? && row.phase == CleaningUp && row.desired != Some(status)
      ensures x.Raised? && old(row.phase) != CleaningUp ==> !calm && row.desired == Some(Aborted)
      ensures calm ==> row == if x.Done? then Act(old(row), ToRequestCleanup(status, false)) else old(row)
    {
      var _ :- Pausing();
      x := RequestCleanupNow(status);
    }

    /** The transaction of `request_cleanup`. */
    method RequestCleanupNow(status: TerminalStatus) returns (x: Exit<Row>)
      requires Valid()
      modifies this`row
      ensures Consistent() && (MayAsk(status) ==> Valid()) && row == Act(old(row), ToRequestCleanup(status, false))
      ensures row.terminal == old(row.terminal) && row.phase == CleaningUp
      ensures old(row.phase) == CleaningUp ==> row == old(row)
      ensures old(row.phase) != CleaningUp ==> row.desired == Some(status)
      ensures x.Done? ==> x.value == row && (row.desired == Some(status) || row.terminal.Some?)
      ensures !x.Done? ==>
                x.Raised? && old(row.phase) == CleaningUp && row.terminal.None? && row.desired != Some(status)
    {
      match RequestCleanup(row, status, false)
      case Ok((updated, _)) =>
        row := updated;
        x := Done(row);
      case Err(e) =>
        x := Raised(Store(e));
    }

    /** The evidence that ending the run leaves it safe. */
    ghost predicate MayClose(verified: bool)
      reads this
    {
      verified && !dryRun && row.desired == Some(Completed) ==> Recorded(artifacts, CleanupRef).verified
    }

    /** `finish_cleanup`: refused only before cleanup was asked for, and safe when the cleanup was verified. */
    method CloseCleanup(verified: bool) returns (x: Exit<Row>)
      requires Valid()
      modifies this`row, this`abortedEarly, this`schedule
      ensures KilledOnlyAsScheduled(x.Killed?)
      ensures Consistent() && (old(MayClose(verified)) ==> Valid())
      ensures calm == old(calm)
      ensures old(row.phase) == CleaningUp ==> row.phase == CleaningUp && row.desired == old(row.desired)
      ensures x.Raised? <==> !x.Killed? && row.phase != CleaningUp
      ensures x.Raised? ==> row == old(row)
      ensures x.Done? ==> x.value == row && row.terminal.Some?
      ensures !x.Done? ==> row.terminal == old(row.terminal)
      ensures x.Done? && old(row.terminal.None?) ==> row.terminal == if verified then row.desired else Some(ResetFailed)
      ensures calm ==> row == if x.Done? then Act(old(row), ToFinishCleanup(verified)) else old(row)
    {
      var _ :- Pausing();
      x := FinishNow(verified);
    }

    /** The transaction of `finish_cleanup`. */
    method FinishNow(verified: bool) returns (x: Exit<Row>)
      requires Valid()
      modifies this`row
      ensures Consistent() && (old(MayClose(verified)) ==> Valid()) && row == Act(old(row), ToFinishCleanup(verified))
      ensures row.phase == old(row.phase) && row.desired == old(row.desired) && !x.Killed?
      ensures x.Raised? <==> row.phase != CleaningUp
      ensures x.Raised? ==> row == old(row)
      ensures x.Done? ==> x.value == row && row.terminal.Some?
      ensures x.Done? && old(row.terminal.None?) ==> row.terminal == if verified then row.desired else Some(ResetFailed)
    {
      match FinishCleanup(row, verified)
      case Ok((updated, _)) =>
        row := updated;
        x := Done(row);
      case Err(e) =>
        x := Raised(Store(e));
    }
  }
}
