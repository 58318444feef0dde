/**
 `DiscoveryWorkflow` of controller/discovery_workflow.py on one run: from CREATED to a locked
 Episode awaiting approval, or to a terminal status without any cluster mutation.
 */
module DiscoveryWorkflow {
  import opened Wrappers
  import opened RunContracts
  import opened RunControl

  /** What the scanner, the analysis and the promotion of episodes come up with in one call. */
  datatype Findings = Findings(
    scanRaises: bool, analysisRaises: bool, candidates: nat, episodes: nat,
    assessment: bool, review: bool, promotionRaises: bool, ready: nat,
    runtimeQualified: bool, observersQualified: bool, autoApprove: bool)

  /** The episode may go on to an execution. */
  predicate Qualified(f: Findings) {
    f.runtimeQualified && f.observersQualified && f.ready > 0
  }

  /** Why discovery may ask for a status. */
  predicate Justified(f: Findings, dryRun: bool, status: TerminalStatus) {
    match status
    case Completed => dryRun
    case NoExecutableEpisode => f.candidates == 0 || f.episodes == 0
    case CaseInvalid => !dryRun && !Qualified(f)
    case Failed => true
    case _ => false
  }

  /** What the run is handed over with. */
  ghost predicate Handed(f: Findings, dryRun: bool, artifacts: map<Ref, Json>, phase: RunPhase) {
    && !dryRun && Qualified(f)
    && phase == (if f.autoApprove then Baselining else AwaitingApproval)
    && {InternalPlanRef, PublicEpisodeRef, MultiLevelRef, QualificationRef, SnapshotRef, BundleRef} <= artifacts.Keys
  }

  datatype Flow = Onward(record: Row) | Finished(record: Row)

  class DiscoveryWorkflow {
    const run: Run

    constructor (run: Run)
      ensures this.run == run
    {
      this.run := run;
    }

    /** Nothing this workflow does may end an execution that stands to complete. */
    ghost predicate NotCompleting()
      reads this, run
    {
      run.row.terminal.None? && (run.dryRun || run.row.desired != Some(Completed))
    }

    /** Only an operator's abort has changed the desired status. */
    twostate predicate OnlyAborts()
      reads run
    {
      run.row.desired == old(run.row.desired) || run.row.desired == Some(Aborted)
    }

    /** The desired status is the old one, an operator's abort, or one discovery is entitled to. */
    twostate predicate Explained(f: Findings)
      reads run
    {
      OnlyAborts() || (run.row.desired.Some? && Justified(f, run.dryRun, run.row.desired.value))
    }

    /** `_terminate_without_mutation`: cleanup counts as verified because nothing was mutated. */
    method Terminate(status: TerminalStatus) returns (x: Exit<Row>)
      requires run.Valid() && !run.calm && NotCompleting() && (status == Completed ==> run.dryRun)
      modifies run`row, run`abortedEarly, run`schedule
      ensures run.Valid() && !run.calm
      ensures x.Done? ==> run.row.terminal.Some? && x.value == run.row
      ensures !x.Done? ==> NotCompleting()
      ensures OnlyAborts() || run.row.desired == Some(status)
      ensures x.Raised? ==> OnlyAborts()
    {
      var current :- run.Get();
      if current.phase != CleaningUp {
        var asked := run.AskCleanup(status);
        var _ :- asked;
      }
      x := run.CloseCleanup(true);
    }

    method Note(ref: Ref) returns (x: Exit<()>)
      requires run.Valid() && !run.calm && NotCompleting() && !IsStage(ref)
      modifies run`row, run`abortedEarly, run`schedule, run`artifacts, run`history, run`announced
      ensures run.Valid() && !run.calm && NotCompleting() && !x.Raised? && OnlyAborts()
      ensures run.artifacts.Keys >= old(run.artifacts.Keys)
      ensures x.Done? ==> ref in run.artifacts
    {
      x := run.Record(ref, Json.Note);
    }

    method Advance(next: RunPhase) returns (x: Exit<Row>)
      requires run.Valid() && !run.calm && NotCompleting()
      requires next in {Scanning, Matching, Designing, Qualifying, AwaitingApproval, Baselining}
      requires PastDiscovery(next) ==> SnapshotRef in run.artifacts && BundleRef in run.artifacts
      modifies run`row, run`abortedEarly, run`schedule
      ensures run.Valid() && !run.calm && NotCompleting() && OnlyAborts()
      ensures x.Done? ==> x.value.phase == next && run.row.terminal.None?
    {
      x := run.Advance(next);
    }

    /** `_scan`. */
    method Scan(f: Findings) returns (x: Exit<()>)
      requires run.Valid() && !run.calm && NotCompleting()
      modifies run`row, run`abortedEarly, run`schedule, run`artifacts, run`history, run`announced
      ensures run.Valid() && !run.calm && NotCompleting() && OnlyAborts()
      ensures x.Done? ==> SnapshotRef in run.artifacts
      ensures x.Raised? ==> f.scanRaises
    {
      var existing :- run.Read(SnapshotRef);
      if existing.Some? { return Done(()); }
      if f.scanRaises { return Raised(DiscoveryRaised(SnapshotRef)); }
      x := Note(SnapshotRef);
    }

    /** `_analyze`. */
    method Analyze(f: Findings) returns (x: Exit<()>)
      requires run.Valid() && !run.calm && NotCompleting()
      modifies run`row, run`abortedEarly, run`schedule, run`artifacts, run`history, run`announced
      ensures run.Valid() && !run.calm && NotCompleting() && OnlyAborts()
      ensures run.artifacts.Keys >= old(run.artifacts.Keys)
      ensures x.Done? ==> BundleRef in run.artifacts
      ensures x.Raised? ==> f.analysisRaises
    {
      var existing :- run.Read(BundleRef);
      if existing.Some? { return Done(()); }
      if f.analysisRaises { return Raised(DiscoveryRaised(BundleRef)); }
      var _ :- Note(BundleRef);
      x := Note(CandidatesRef);
    }

    /** `_record_design_artifacts`. */
    method RecordDesigns(f: Findings) returns (x: Exit<()>)
      requires run.Valid() && !run.calm && NotCompleting()
      modifies run`row, run`abortedEarly, run`schedule, run`artifacts, run`history, run`announced
      ensures run.Valid() && !run.calm && NotCompleting() && OnlyAborts() && !x.Raised?
      ensures run.artifacts.Keys >= old(run.artifacts.Keys)
    {
      var _ :- Note(EpisodesRef);
      var _ :- Note(ManifestRef);
      if f.assessment {
        var _ :- Note(AssessmentRef);
      }
      if f.review {
        var _ :- Note(ReviewRef);
      }
      x := Done(());
    }

    /** `_load_snapshot` and `_load_bundle`. */
    method Load(ref: Ref) returns (x: Exit<()>)
      requires run.Valid() && !run.calm && run.row.terminal.None?
      modifies run`row, run`abortedEarly, run`schedule
      ensures run.Valid() && run.Continues()
      ensures x.Done? ==> ref in run.artifacts
      ensures x.Raised? ==> ref !in run.artifacts
    {
      var value :- run.Read(ref);
      x := if value.None? then Raised(Missing(ref)) else Done(());
    }

    /** `_qualify`: lock the first promoted episode, then approve, await approval, or end the run. */
    method Qualify(f: Findings) returns (x: Exit<Row>)
      requires run.Valid() && !run.calm && NotCompleting()
      requires SnapshotRef in run.artifacts && BundleRef in run.artifacts
      modifies run`row, run`abortedEarly, run`schedule, run`artifacts, run`history, run`announced
      ensures run.Valid() && !run.calm && Explained(f)
      ensures x.Raised? ==> NotCompleting() && OnlyAborts()
      ensures x.Done? && !run.dryRun && Qualified(f) ==>
                run.row.terminal.None? && Handed(f, run.dryRun, run.artifacts, x.value.phase)
      ensures x.Done? && (run.dryRun || !Qualified(f)) ==> run.row.terminal.Some?
    {
      var ready := if run.dryRun then 0 else f.ready;
      if !run.dryRun && f.promotionRaises { return Raised(DiscoveryRaised(QualificationRef)); }
      if ready > 0 {
        var _ :- Lock();
      }
      var _ :- Note(QualificationRef);
      x := Conclude(f, ready);
    }

    /** What the recorded qualification leads to. */
    method Conclude(f: Findings, ready: nat) returns (x: Exit<Row>)
      requires run.Valid() && !run.calm && NotCompleting() && ready == (if run.dryRun then 0 else f.ready)
      requires {SnapshotRef, BundleRef, QualificationRef} <= run.artifacts.Keys
      requires ready > 0 ==> {InternalPlanRef, PublicEpisodeRef, MultiLevelRef} <= run.artifacts.Keys
      modifies run`row, run`abortedEarly, run`schedule
      ensures run.Valid() && !run.calm && Explained(f)
      ensures x.Raised? ==> NotCompleting() && OnlyAborts()
      ensures x.Done? && !run.dryRun && Qualified(f) ==>
                run.row.terminal.None? && Handed(f, run.dryRun, run.artifacts, x.value.phase)
      ensures x.Done? && (run.dryRun || !Qualified(f)) ==> run.row.terminal.Some?
    {
      if run.dryRun {
        x := Terminate(Completed);
      } else if !f.runtimeQualified || !f.observersQualified || ready == 0 {
        x := Terminate(CaseInvalid);
      } else {
        x := Advance(if f.autoApprove then Baselining else AwaitingApproval);
      }
    }

    /** Writes the selected episode in its three forms. */
    method Lock() returns (x: Exit<()>)
      requires run.Valid() && !run.calm && NotCompleting()
      modifies run`row, run`abortedEarly, run`schedule, run`artifacts, run`history, run`announced
      ensures run.Valid() && !run.calm && NotCompleting() && OnlyAborts() && !x.Raised?
      ensures run.artifacts.Keys >= old(run.artifacts.Keys)
      ensures x.Done? ==> {InternalPlanRef, PublicEpisodeRef, MultiLevelRef} <= run.artifacts.Keys
    {
      var _ :- Note(InternalPlanRef);
      var _ :- Note(PublicEpisodeRef);
      x := Note(MultiLevelRef);
    }

    /** Scanning, or the snapshot of an earlier scan. */
    method ToMatching(start: Row, f: Findings) returns (x: Exit<Row>)
      requires run.Valid() && !run.calm && run.row == start && start.terminal.None?
      modifies run`row, run`abortedEarly, run`schedule, run`artifacts, run`history, run`announced
      ensures run.Valid() && !run.calm && run.row.terminal.None? && OnlyAborts()
      ensures x.Raised? || Discovering(start.phase) ==> NotCompleting()
      ensures x.Done? ==> SnapshotRef in run.artifacts
      ensures x.Done? ==> if start.phase in {Created, Scanning} then x.value.phase == Matching else x.value == start
    {
      var record := start;
      if record.phase == Created {
        record :- Advance(Scanning);
      }
      if record.phase == Scanning {
        var _ :- Scan(f);
        record :- Advance(Matching);
      } else {
        var _ :- Load(SnapshotRef);
      }
      x := Done(record);
    }

    /** Matching, or the analysis of an earlier one. */
    method ToDesigning(start: Row, f: Findings) returns (x: Exit<Flow>)
      requires run.Valid() && !run.calm && run.row.terminal.None? && SnapshotRef in run.artifacts
      requires Discovering(start.phase) ==> NotCompleting()
      modifies run`row, run`abortedEarly, run`schedule, run`artifacts, run`history, run`announced
      ensures run.Valid() && !run.calm && Explained(f)
      ensures x.Raised? || (x.Done? && x.value.Onward? && Discovering(start.phase)) ==> NotCompleting() && OnlyAborts()
      ensures x.Done? && x.value.Finished? ==> run.row.terminal.Some? && start.phase == Matching
      ensures x.Done? && x.value.Onward? ==> SnapshotRef in run.artifacts && BundleRef in run.artifacts
      ensures x.Done? && x.value.Onward? ==> if start.phase == Matching then x.value.record.phase == Designing else x.value.record == start
    {
      if start.phase != Matching {
        var _ :- Load(BundleRef);
        return Done(Onward(start));
      }
      var _ :- Analyze(f);
      if f.candidates == 0 {
        var ended :- Terminate(NoExecutableEpisode);
        return Done(Finished(ended));
      }
      var record :- Advance(Designing);
      x := Done(Onward(record));
    }

    method ToQualifying(f: Findings) returns (x: Exit<Flow>)
      requires run.Valid() && !run.calm && NotCompleting() && SnapshotRef in run.artifacts && BundleRef in run.artifacts
      modifies run`row, run`abortedEarly, run`schedule, run`artifacts, run`history, run`announced
      ensures run.Valid() && !run.calm && Explained(f)
      ensures x.Raised? || (x.Done? && x.value.Onward?) ==> NotCompleting() && OnlyAborts()
      ensures x.Done? && x.value.Finished? ==> run.row.terminal.Some?
      ensures x.Done? && x.value.Onward? ==> SnapshotRef in run.artifacts && BundleRef in run.artifacts
    {
      var _ :- RecordDesigns(f);
      if f.episodes == 0 {
        var ended :- Terminate(NoExecutableEpisode);
        return Done(Finished(ended));
      }
      var record :- Advance(Qualifying);
      x := Done(Onward(record));
    }

    /** The body of the `try` in `process`. */
    method Phases(start: Row, f: Findings) returns (x: Exit<Row>)
      requires run.Valid() && !run.calm && run.row == start && start.terminal.None?
      modifies run`row, run`abortedEarly, run`schedule, run`artifacts, run`history, run`announced
      ensures run.Valid() && !run.calm && Explained(f)
      ensures x.Raised? ==> NotCompleting() && OnlyAborts()
      ensures x.Done? && Discovering(start.phase) ==> run.row.terminal.Some? || Handed(f, run.dryRun, run.artifacts, x.value.phase)
    {
      var record :- ToMatching(start, f);
      var flow :- ToDesigning(record, f);
      if flow.Finished? { return Done(flow.record); }
      record := flow.record;
      if record.phase == Designing {
        flow :- ToQualifying(f);
        if flow.Finished? { return Done(flow.record); }
        x := Qualify(f);
        return;
      }
      if record.phase == Qualifying {
        x := Qualify(f);
        return;
      }
      x := Done(record);
    }

    /**
     `process`, for a run in any phase, killed or aborted anywhere. It asks only for a status its
     findings justify, and a run it lets go on is qualified and has its locked episode recorded.
     */
    method Process(f: Findings) returns (x: Exit<Row>)
      requires run.Valid() && !run.calm
      modifies run`row, run`abortedEarly, run`schedule, run`artifacts, run`history, run`announced
      ensures run.Valid() && !run.calm && Explained(f)
      ensures x.Done? && Discovering(old(run.row.phase)) ==>
                run.row.terminal.Some? || run.row.phase == CleaningUp || Handed(f, run.dryRun, run.artifacts, x.value.phase)
    {
      var record :- run.Get();
      if record.terminal.Some? { return Done(record); }
      x := Phases(record, f);
      if x.Raised? {
        var _ :- run.Get();
        var _ :- Note(DiscoveryFailureRef);
        x := Terminate(Failed);
      }
    }
  }

  predicate Discovering(phase: RunPhase) {
    phase in {Created, Scanning, Matching, Designing, Qualifying}
  }
}
