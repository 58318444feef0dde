/**
 Run phases, terminal statuses and the three operations that move one run row
 (controller/run_contracts.py and the row updates of controller/run_store.py).
 Every operation either returns the new row or an error that leaves the row alone.
 */
module RunContracts {
  import opened Wrappers

  datatype RunPhase =
    | Created | Scanning | Matching | Designing | Qualifying | AwaitingApproval
    | Baselining | Executing | Recovering | Evaluating | Scoring | CleaningUp

  datatype TerminalStatus =
    | Completed | Failed | Blocked | ResetFailed | Aborted | CaseInvalid | NoExecutableEpisode

  datatype StoreError =
    | RunNotFound
    | TerminalRunCannotTransition
    | EdgeNotAllowed(source: RunPhase, target: RunPhase)
    | CleanupStatusConflict
    | CleanupNotRequested
    | LeaseConflict
    | InvalidArgument

  datatype Row = Row(
    phase: RunPhase,
    terminal: Option<TerminalStatus>,
    desired: Option<TerminalStatus>,
    abortRequested: bool,
    revision: nat,
    lastError: Option<string>)

  const FRESH_ROW := Row(Created, None, None, false, 0, None)

  function AllowedNext(phase: RunPhase): set<RunPhase> {
    match phase
    case Created => {Scanning}
    case Scanning => {Matching}
    case Matching => {Designing}
    case Designing => {Qualifying}
    case Qualifying => {AwaitingApproval, Baselining}
    case AwaitingApproval => {Baselining}
    case Baselining => {Executing}
    case Executing => {Recovering}
    case Recovering => {Evaluating}
    case Evaluating => {RunPhase.Scoring}
    case Scoring => {}
    case CleaningUp => {}
  }

  /** `RunStore.transition`, for the row it updates. */
  function Advance(row: Row, next: RunPhase): Result<Row, StoreError> {
    if row.terminal.Some? then Err(TerminalRunCannotTransition)
    else if next !in AllowedNext(row.phase) then Err(EdgeNotAllowed(row.phase, next))
    else Ok(row.(phase := next, revision := row.revision + 1))
  }

  /** `RunStore.request_cleanup`: the new row, and whether an event is logged for it. */
  function RequestCleanup(row: Row, status: TerminalStatus, abort: bool): Result<(Row, bool), StoreError> {
    if row.terminal.Some? then Ok((row, false))
    else if row.phase == CleaningUp then
      if row.desired != Some(status) then Err(CleanupStatusConflict)
      else Ok((row.(abortRequested := abort || row.abortRequested), false))
    else
      Ok((row.(phase := CleaningUp, desired := Some(status),
               abortRequested := abort || row.abortRequested, revision := row.revision + 1), true))
  }

  /** `RunStore.finish_cleanup`: the new row, and whether the run terminated in this call. */
  function FinishCleanup(row: Row, verified: bool): Result<(Row, bool), StoreError> {
    if row.terminal.Some? then Ok((row, false))
    else if row.phase != CleaningUp || row.desired.None? then Err(CleanupNotRequested)
    else
      Ok((row.(terminal := if verified then row.desired else Some(ResetFailed),
               revision := row.revision + 1,
               lastError := if verified then None else Some("cleanup verification failed")), true))
  }

  // ---------------------------------------------------------------- the row state machine

  datatype RowAction =
    | ToAdvance(next: RunPhase)
    | ToRequestCleanup(status: TerminalStatus, abort: bool)
    | ToFinishCleanup(verified: bool)

  function Act(row: Row, action: RowAction): Row {
    match action
    case ToAdvance(next) => (match Advance(row, next) case Ok(r) => r case Err(_) => row)
    case ToRequestCleanup(status, abort) =>
      (match RequestCleanup(row, status, abort) case Ok(r) => r.0 case Err(_) => row)
    case ToFinishCleanup(verified) =>
      (match FinishCleanup(row, verified) case Ok(r) => r.0 case Err(_) => row)
  }

  function ActAll(row: Row, actions: seq<RowAction>): Row
    decreases |actions|
  {
    if actions == [] then row else ActAll(Act(row, actions[0]), actions[1..])
  }

  /** Length of the longest path from Created: the number of phase changes a row can have seen. */
  function Depth(phase: RunPhase): nat {
    match phase
    case Created => 0
    case Scanning => 1
    case Matching => 2
    case Designing => 3
    case Qualifying => 4
    case AwaitingApproval => 5
    case Baselining => 6
    case Executing => 7
    case Recovering => 8
    case Evaluating => 9
    case Scoring => 10
    case CleaningUp => 11
  }

  predicate ValidRow(row: Row) {
    && (row.desired.Some? <==> row.phase == CleaningUp)
    && (row.terminal.Some? ==> row.phase == CleaningUp && row.terminal in {row.desired, Some(ResetFailed)})
    && row.revision <= Depth(row.phase) + (if row.terminal.Some? then 1 else 0)
    && (row.revision == 0 ==> row.phase == Created)
  }

  /**
   Terminal and cleanup state machine, over every sequence of calls from any valid row:
   desired status exactly while cleaning up and then fixed, terminal status the desired
   one or RESET_FAILED and then the whole row frozen, revision at most 12.
   */
  lemma {:induction false} RowMachine(row: Row, actions: seq<RowAction>)
    requires ValidRow(row)
    ensures ValidRow(ActAll(row, actions))
    ensures ActAll(row, actions).revision <= 12
    ensures row.desired.Some? ==> ActAll(row, actions).desired == row.desired
    ensures row.terminal.Some? ==> ActAll(row, actions) == row
    ensures row.abortRequested ==> ActAll(row, actions).abortRequested
    ensures row.revision <= ActAll(row, actions).revision
    decreases |actions|
  {
    if actions != [] {
      assert ValidRow(Act(row, actions[0]));
      RowMachine(Act(row, actions[0]), actions[1..]);
    }
  }

  /** A phase is left only along an allowed edge or by the jump to CLEANING_UP, one revision at a time. */
  lemma ActMovesAlongEdges(row: Row, action: RowAction)
    requires ValidRow(row)
    ensures var after := Act(row, action);
            && (after.phase == row.phase || after.phase in AllowedNext(row.phase) || after.phase == CleaningUp)
            && (after.revision == row.revision <==> (after.phase, after.terminal) == (row.phase, row.terminal))
            && (after.revision != row.revision ==> after.revision == row.revision + 1)
  {
  }

  /** The bound of RowMachine is reached: the longest approved run ends at revision 12. */
  lemma TwelveRevisionsAreReached() returns (actions: seq<RowAction>)
    ensures ActAll(FRESH_ROW, actions).revision == 12
    ensures ActAll(FRESH_ROW, actions).terminal == Some(Completed)
  {
    actions := [ToFinishCleanup(true)];
    actions := [ToRequestCleanup(Completed, false)] + actions;
    var phases := [Scanning, Matching, Designing, Qualifying, AwaitingApproval, Baselining,
                   Executing, Recovering, Evaluating, RunPhase.Scoring];
    var row := Row(RunPhase.Scoring, None, None, false, 10, None);
    assert ActAll(row, actions) == row.(phase := CleaningUp, desired := Some(Completed),
                                        revision := 12, terminal := Some(Completed)) by {
      assert actions[1..] == [ToFinishCleanup(true)];
      assert actions[1..][1..] == [];
      var mid := Act(row, actions[0]);
      assert ActAll(mid, actions[1..]) == ActAll(Act(mid, ToFinishCleanup(true)), []);
    }
    ghost var last := ActAll(row, actions);
    var i := |phases|;
    while i > 0
      invariant 0 <= i <= |phases|
      invariant ActAll(Row(if i == 0 then Created else phases[i - 1], None, None, false, i, None), actions) == last
    {
      i := i - 1;
      var before := Row(if i == 0 then Created else phases[i - 1], None, None, false, i, None);
      var longer := [ToAdvance(phases[i])] + actions;
      assert longer[1..] == actions;
      actions := longer;
    }
  }
}
