/**
 Properties of every history of the run store: any sequence of client calls with any
 replies and table contents that controller/run_store.py can produce for them.
 */
module RunHistory {
  import opened Wrappers
  import opened RunContracts
  import opened RunLog
  import opened RunStore

  datatype Turn = Turn(before: Tables, call: Call, reply: Reply, after: Tables)

  function TablesAt(turns: seq<Turn>, n: nat): Tables
    requires n <= |turns|
  {
    if n == 0 then EMPTY else turns[n - 1].after
  }

  ghost predicate IsHistory(turns: seq<Turn>) {
    && (turns != [] ==> turns[0].before == EMPTY)
    && (forall i, j :: 0 <= i < j < |turns| && j == i + 1 ==> turns[j].before == turns[i].after)
    && (forall i :: 0 <= i < |turns| ==>
          Transacts(turns[i].before, turns[i].call, turns[i].reply, turns[i].after))
  }

  // ---------------------------------------------------------------- tables that agree with each other

  ghost predicate WellLogged(row: Row, log: seq<Event>) {
    && log != []
    && Numbered(log)
    && PhasesFollowEdges(log)
    && log[|log| - 1].phase == row.phase
  }

  ghost predicate Logged(t: Tables) {
    && (forall id :: id in t.runs ==> ValidRow(t.runs[id].row) && WellLogged(t.runs[id].row, Log(t.events, id)))
    && (forall id :: id !in t.runs ==> Log(t.events, id) == [])
  }

  ghost predicate DistinctRequests(t: Tables) {
    forall a, b :: a in t.runs && b in t.runs && a != b ==> t.runs[a].requestId != t.runs[b].requestId
  }

  ghost predicate LeasesOnLiveRuns(t: Tables) {
    && (t.lease.Some? ==> t.lease.value.runId in t.runs && t.runs[t.lease.value.runId].row.terminal.None?)
    && (forall id :: id in t.workers ==> id in t.runs)
  }

  ghost predicate Consistent(t: Tables) {
    Logged(t) && DistinctRequests(t) && LeasesOnLiveRuns(t)
  }

  /** Callers leave the event names that carry meaning to the store. */
  predicate Honest(c: Call) {
    c.AppendEvent? ==> !Significant(Named(c.name))
  }

  // ---------------------------------------------------------------- the three shapes of a transaction

  datatype Change =
    | Quiet
    | Opens(id: RunId)
    | Stamps(id: RunId, eventType: EventType, status: Option<TerminalStatus>)

  ghost predicate QuietChange(t: Tables, after: Tables) {
    && after.events == t.events
    && after.runs.Keys == t.runs.Keys
    && forall id :: id in t.runs ==>
         after.runs[id] == t.runs[id].(row := t.runs[id].row.(abortRequested := after.runs[id].row.abortRequested))
  }

  ghost predicate OpensRun(t: Tables, after: Tables, id: RunId) {
    && id !in t.runs && id in after.runs
    && after.runs == t.runs[id := after.runs[id]]
    && after.runs[id].row == FRESH_ROW
    && (forall other :: other in t.runs ==> t.runs[other].requestId != after.runs[id].requestId)
    && after.events == Stamp(t, id, RUN_CREATED, FRESH_ROW, None).events
  }

  ghost predicate StampsRun(t: Tables, after: Tables, ch: Change, honest: bool)
    requires ch.Stamps?
  {
    && ch.id in t.runs && ch.id in after.runs
    && after.runs == t.runs[ch.id := t.runs[ch.id].(row := after.runs[ch.id].row)]
    && var (old', new') := (t.runs[ch.id].row, after.runs[ch.id].row);
       && after.events == Stamp(t, ch.id, ch.eventType, new', ch.status).events
       && (ValidRow(old') ==> ValidRow(new'))
       && (old'.terminal.Some? ==> new' == old')
       && FollowsEdge(old'.phase, new'.phase)
       && (ValidRow(old') && honest ==>
             Fold(ViewOf(old'), Event(ch.id, 0, ch.eventType, new'.phase, new'.terminal, ch.status)) == ViewOf(new'))
  }

  ghost predicate HasShape(t: Tables, c: Call, after: Tables, ch: Change) {
    match ch
    case Quiet => QuietChange(t, after)
    case Opens(id) => OpensRun(t, after, id)
    case Stamps(_, _, _) => StampsRun(t, after, ch, Honest(c))
  }

  lemma ShapeOfTransition(t: Tables, c: Call, reply: Reply, after: Tables) returns (ch: Change)
    requires Transacts(t, c, reply, after) && c.Transition?
    ensures HasShape(t, c, after, ch)
  {
    ch := if reply.Done? then Stamps(c.id, PHASE_TRANSITIONED, None) else Quiet;
  }

  lemma ShapeOfCleanup(t: Tables, c: Call, reply: Reply, after: Tables) returns (ch: Change)
    requires Transacts(t, c, reply, after) && c.Cleanup?
    ensures HasShape(t, c, after, ch)
  {
    ch := if Rejection(t, c).None? && t.runs[c.id].row.terminal.None? && t.runs[c.id].row.phase != CleaningUp
          then Stamps(c.id, if c.abort then ABORT_REQUESTED else CLEANUP_REQUESTED, Some(c.wanted)) else Quiet;
  }

  lemma ShapeOfFinish(t: Tables, c: Call, reply: Reply, after: Tables) returns (ch: Change)
    requires Transacts(t, c, reply, after) && c.Finish?
    ensures HasShape(t, c, after, ch)
  {
    ch := if reply.Done? && t.runs[c.id].row.terminal.None? then Stamps(c.id, RUN_TERMINATED, None) else Quiet;
  }

  /** The calls that log an event but leave every run row alone. */
  lemma ShapeOfNote(t: Tables, c: Call, reply: Reply, after: Tables) returns (ch: Change)
    requires Transacts(t, c, reply, after) && (c.AppendEvent? || c.Acquire? || c.Release?)
    ensures HasShape(t, c, after, ch)
  {
    ch := Quiet;
    if Rejection(t, c).None? && after.events != t.events {
      ch := Stamps(c.id, if c.AppendEvent? then Named(c.name) else if c.Acquire? then MUTATION_LEASE_ACQUIRED
                         else MUTATION_LEASE_RELEASED, if c.AppendEvent? then c.status else None);
    }
  }

  lemma ShapeOfWorkerCall(t: Tables, c: Call, reply: Reply, after: Tables) returns (ch: Change)
    requires Transacts(t, c, reply, after) && (c.Claim? || c.Renew? || c.Quit?)
    ensures HasShape(t, c, after, ch)
  {
    ch := if c.Claim? && reply.Claimed? then Stamps(reply.id, WORKER_CLAIMED, None) else Quiet;
  }

  lemma ShapeOfCreate(t: Tables, c: Call, reply: Reply, after: Tables) returns (ch: Change)
    requires Transacts(t, c, reply, after) && c.CreateOrGet?
    ensures HasShape(t, c, after, ch)
  {
    ch := if after == t then Quiet else Opens(c.candidate);
  }

  lemma ShapeOf(t: Tables, c: Call, reply: Reply, after: Tables) returns (ch: Change)
    requires Transacts(t, c, reply, after)
    ensures HasShape(t, c, after, ch)
  {
    if c.CreateOrGet? {
      ch := ShapeOfCreate(t, c, reply, after);
    } else if c.Transition? {
      ch := ShapeOfTransition(t, c, reply, after);
    } else if c.Cleanup? {
      ch := ShapeOfCleanup(t, c, reply, after);
    } else if c.Finish? {
      ch := ShapeOfFinish(t, c, reply, after);
    } else if c.AppendEvent? || c.Acquire? || c.Release? {
      ch := ShapeOfNote(t, c, reply, after);
    } else {
      ch := ShapeOfWorkerCall(t, c, reply, after);
    }
  }

  lemma StepKeepsLeasesOnLiveRuns(t: Tables, c: Call, reply: Reply, after: Tables)
    requires LeasesOnLiveRuns(t) && Transacts(t, c, reply, after)
    ensures LeasesOnLiveRuns(after)
  {
  }

  lemma ShapeKeepsDistinctRequests(t: Tables, c: Call, after: Tables, ch: Change)
    requires DistinctRequests(t) && HasShape(t, c, after, ch)
    ensures DistinctRequests(after)
  {
    if !ch.Opens? {
      assert after.runs.Keys == t.runs.Keys;
      assert forall id :: id in t.runs ==> after.runs[id].requestId == t.runs[id].requestId;
    }
  }

  /** Stamping one event extends exactly one log, by one correctly numbered entry. */
  lemma StampedLog(t: Tables, id: RunId, eventType: EventType, row: Row, status: Option<TerminalStatus>)
    requires Numbered(Log(t.events, id))
    ensures Log(Stamp(t, id, eventType, row, status).events, id) ==
            Log(t.events, id) + [Event(id, |Log(t.events, id)| + 1, eventType, row.phase, row.terminal, status)]
  {
    MaxSequenceCounts(t.events, id);
    LogOfAppend(t.events, Event(id, MaxSequence(t.events, id) + 1, eventType, row.phase, row.terminal, status), id);
  }

  lemma StampExtendsOneLog(t: Tables, id: RunId, eventType: EventType, row: Row, status: Option<TerminalStatus>)
    requires Numbered(Log(t.events, id))
    ensures var events := Stamp(t, id, eventType, row, status).events;
            && (forall other :: other != id ==> Log(events, other) == Log(t.events, other))
            && Log(events, id) == Log(t.events, id) +
                 [Event(id, |Log(t.events, id)| + 1, eventType, row.phase, row.terminal, status)]
            && t.events <= events
  {
    MaxSequenceCounts(t.events, id);
    var e := Event(id, MaxSequence(t.events, id) + 1, eventType, row.phase, row.terminal, status);
    forall other ensures Log(t.events + [e], other) == Log(t.events, other) + (if other == id then [e] else []) {
      LogOfAppend(t.events, e, other);
    }
  }

  lemma LongerLogStaysWell(before: Row, row: Row, log: seq<Event>, e: Event)
    requires WellLogged(before, log)
    requires e.sequence == |log| + 1 && e.phase == row.phase && FollowsEdge(before.phase, row.phase)
    ensures WellLogged(row, log + [e])
  {
    var longer := log + [e];
    assert forall i :: 0 <= i < |log| ==> longer[i] == log[i];
  }

  lemma OpenedRunIsLogged(t: Tables, after: Tables, id: RunId)
    requires Logged(t) && OpensRun(t, after, id)
    ensures Logged(after) && t.events <= after.events
  {
    var e := Event(id, 1, RUN_CREATED, Created, None, None);
    assert Log(t.events, id) == [];
    StampExtendsOneLog(t, id, RUN_CREATED, FRESH_ROW, None);
    assert Log(after.events, id) == [e];
    FirstEventIsWell(e);
    OneLogIsNew(t, after, id);
  }

  lemma FirstEventIsWell(e: Event)
    requires e.sequence == 1 && e.phase == Created
    ensures WellLogged(FRESH_ROW, [e])
  {
  }

  lemma OneLogIsNew(t: Tables, after: Tables, id: RunId)
    requires Logged(t) && id in after.runs && after.runs == t.runs[id := after.runs[id]]
    requires ValidRow(after.runs[id].row) && WellLogged(after.runs[id].row, Log(after.events, id))
    requires forall other :: other != id ==> Log(after.events, other) == Log(t.events, other)
    ensures Logged(after)
  {
  }

  lemma StampedRunIsLogged(t: Tables, after: Tables, ch: Change, honest: bool)
    requires Logged(t) && ch.Stamps? && StampsRun(t, after, ch, honest)
    ensures Logged(after) && t.events <= after.events
  {
    var row, log := after.runs[ch.id].row, Log(t.events, ch.id);
    StampExtendsOneLog(t, ch.id, ch.eventType, row, ch.status);
    LongerLogStaysWell(t.runs[ch.id].row, row, log,
                       Event(ch.id, |log| + 1, ch.eventType, row.phase, row.terminal, ch.status));
  }

  lemma StepKeepsConsistent(t: Tables, c: Call, reply: Reply, after: Tables)
    requires Consistent(t) && Transacts(t, c, reply, after)
    ensures Consistent(after)
    ensures t.events <= after.events
  {
    StepKeepsLeasesOnLiveRuns(t, c, reply, after);
    var ch := ShapeOf(t, c, reply, after);
    ShapeKeepsDistinctRequests(t, c, after, ch);
    match ch
    case Quiet => QuietRunsStayLogged(t, after);
    case Opens(id) => OpenedRunIsLogged(t, after, id);
    case Stamps(_, _, _) => StampedRunIsLogged(t, after, ch, Honest(c));
  }

  lemma QuietRunsStayLogged(t: Tables, after: Tables)
    requires Logged(t) && QuietChange(t, after)
    ensures Logged(after)
  {
  }

  /** Three calls move a run's row, and only its own. */
  predicate Moves(c: Call, id: RunId) {
    (c.Transition? && c.id == id) || (c.Cleanup? && c.id == id) || (c.Finish? && c.id == id)
  }

  lemma MovesLeaveOthers(t: Tables, c: Call, reply: Reply, after: Tables, id: RunId)
    requires Transacts(t, c, reply, after) && id in t.runs
    requires c.Transition? || c.Cleanup? || c.Finish?
    ensures id in after.runs && after.runs[id].spec == t.runs[id].spec
    ensures !Moves(c, id) ==> after.runs[id] == t.runs[id]
  {
  }

  lemma OthersLeaveRows(t: Tables, c: Call, reply: Reply, after: Tables, id: RunId)
    requires Transacts(t, c, reply, after) && id in t.runs
    requires !c.Transition? && !c.Cleanup? && !c.Finish?
    ensures id in after.runs && after.runs[id] == t.runs[id]
  {
    if c.CreateOrGet? {
      var ch := ShapeOfCreate(t, c, reply, after);
      CreateLeavesRows(t, c, reply, after, id);
    }
  }

  lemma CreateLeavesRows(t: Tables, c: Call, reply: Reply, after: Tables, id: RunId)
    requires Transacts(t, c, reply, after) && id in t.runs && c.CreateOrGet?
    ensures id in after.runs && after.runs[id] == t.runs[id]
  {
  }

  lemma MovesAct(t: Tables, c: Call, reply: Reply, after: Tables, id: RunId)
    requires Transacts(t, c, reply, after) && id in t.runs && id in after.runs && Moves(c, id)
    ensures t.runs[id].row.revision <= after.runs[id].row.revision
    ensures t.runs[id].row.terminal.Some? ==> after.runs[id].row == t.runs[id].row
  {
  }

  /** A run is never lost, its spec is fixed, its revision only rises, and a terminal row never changes again. */
  lemma StepKeepsTerminalRows(t: Tables, c: Call, reply: Reply, after: Tables, id: RunId)
    requires Transacts(t, c, reply, after) && id in t.runs
    ensures id in after.runs && after.runs[id].spec == t.runs[id].spec
    ensures t.runs[id].row.revision <= after.runs[id].row.revision
    ensures t.runs[id].row.terminal.Some? ==> after.runs[id].row == t.runs[id].row
  {
    if c.Transition? || c.Cleanup? || c.Finish? {
      MovesLeaveOthers(t, c, reply, after, id);
      if Moves(c, id) {
        MovesAct(t, c, reply, after, id);
      }
    } else {
      OthersLeaveRows(t, c, reply, after, id);
    }
  }

  /**
   Log and lease invariants over every history: each run's events are numbered 1..n without
   gaps, consecutive logged phases follow the allowed edges or jump to CLEANING_UP and end at
   the row's phase, rows are valid, request ids name one run, and a terminal run holds no lease.
   */
  lemma {:induction false} HistoryIsConsistent(turns: seq<Turn>, n: nat)
    requires IsHistory(turns) && n <= |turns|
    ensures Consistent(TablesAt(turns, n))
  {
    if n > 0 {
      HistoryIsConsistent(turns, n - 1);
      StepKeepsConsistent(TablesAt(turns, n - 1), turns[n - 1].call, turns[n - 1].reply, turns[n - 1].after);
    }
  }

  /** Logged events are never altered or removed: an earlier table is a prefix of every later one. */
  lemma {:induction false} EventsAreNeverAltered(turns: seq<Turn>, m: nat, n: nat)
    requires IsHistory(turns) && m <= n <= |turns|
    ensures TablesAt(turns, m).events <= TablesAt(turns, n).events
  {
    if m < n {
      EventsAreNeverAltered(turns, m, n - 1);
      HistoryIsConsistent(turns, n - 1);
      StepKeepsConsistent(TablesAt(turns, n - 1), turns[n - 1].call, turns[n - 1].reply, turns[n - 1].after);
    }
  }

  /** Once terminal, a run's phase, desired and terminal status and revision are fixed for the rest of the history. */
  lemma TerminalRunIsFrozen(turns: seq<Turn>, m: nat, n: nat, id: RunId)
    requires IsHistory(turns) && m <= n <= |turns|
    requires id in TablesAt(turns, m).runs && TablesAt(turns, m).runs[id].row.terminal.Some?
    ensures id in TablesAt(turns, n).runs
    ensures TablesAt(turns, n).runs[id].row == TablesAt(turns, m).runs[id].row
    ensures TablesAt(turns, n).runs[id].row.revision <= 12
  {
    TerminalRowStays(turns, m, n, id);
    ReachedRowIsValid(turns, n, id);
  }

  lemma {:induction false} TerminalRowStays(turns: seq<Turn>, m: nat, n: nat, id: RunId)
    requires IsHistory(turns) && m <= n <= |turns|
    requires id in TablesAt(turns, m).runs && TablesAt(turns, m).runs[id].row.terminal.Some?
    ensures id in TablesAt(turns, n).runs
    ensures TablesAt(turns, n).runs[id].row == TablesAt(turns, m).runs[id].row
  {
    if m < n {
      TerminalRowStays(turns, m, n - 1, id);
      var turn := turns[n - 1];
      assert turn.before == TablesAt(turns, n - 1);
      StepKeepsTerminalRows(turn.before, turn.call, turn.reply, turn.after, id);
    }
  }

  lemma ReachedRowIsValid(turns: seq<Turn>, n: nat, id: RunId)
    requires IsHistory(turns) && n <= |turns| && id in TablesAt(turns, n).runs
    ensures ValidRow(TablesAt(turns, n).runs[id].row) && TablesAt(turns, n).runs[id].row.revision <= 12
  {
    HistoryIsConsistent(turns, n);
  }

  // ---------------------------------------------------------------- replaying the log

  ghost predicate Faithful(t: Tables) {
    forall id :: id in t.runs ==> Replay(Log(t.events, id)) == ViewOf(t.runs[id].row)
  }

  lemma OpenedRunIsFaithful(t: Tables, after: Tables, id: RunId)
    requires Logged(t) && Faithful(t) && OpensRun(t, after, id)
    ensures Faithful(after)
  {
    StampExtendsOneLog(t, id, RUN_CREATED, FRESH_ROW, None);
    ReplayOfAppend([], Event(id, 1, RUN_CREATED, Created, None, None));
  }

  /** What one more event does to the replay of the log it lands in. */
  lemma StampedReplay(t: Tables, id: RunId, eventType: EventType, row: Row, status: Option<TerminalStatus>)
    requires Numbered(Log(t.events, id))
    ensures Replay(Log(Stamp(t, id, eventType, row, status).events, id))
            == Fold(Replay(Log(t.events, id)), Event(id, 0, eventType, row.phase, row.terminal, status))
  {
    var log := Log(t.events, id);
    StampedLog(t, id, eventType, row, status);
    ReplayOfAppend(log, Event(id, |log| + 1, eventType, row.phase, row.terminal, status));
  }

  lemma StampedRunIsFaithful(t: Tables, after: Tables, ch: Change)
    requires Logged(t) && Faithful(t) && ch.Stamps? && StampsRun(t, after, ch, true)
    ensures Faithful(after)
  {
    var row := after.runs[ch.id].row;
    StampedReplay(t, ch.id, ch.eventType, row, ch.status);
    forall id | id in after.runs && id != ch.id ensures Log(after.events, id) == Log(t.events, id) {
      StampExtendsOneLog(t, ch.id, ch.eventType, row, ch.status);
    }
  }

  lemma StepKeepsFaithful(t: Tables, c: Call, reply: Reply, after: Tables)
    requires Logged(t) && Faithful(t) && Honest(c) && Transacts(t, c, reply, after)
    ensures Faithful(after)
  {
    var ch := ShapeOf(t, c, reply, after);
    match ch
    case Quiet =>
      assert forall id :: id in t.runs ==> ViewOf(after.runs[id].row) == ViewOf(t.runs[id].row);
    case Opens(id) => OpenedRunIsFaithful(t, after, id);
    case Stamps(_, _, _) => StampedRunIsFaithful(t, after, ch);
  }

  /**
   Log replay: while callers do not append events under the five reserved names, folding a
   run's log rebuilds the phase, terminal status, desired status and revision of its row.
   */
  lemma {:induction false} LogRebuildsRow(turns: seq<Turn>, n: nat)
    requires IsHistory(turns) && n <= |turns|
    requires forall i :: 0 <= i < n ==> Honest(turns[i].call)
    ensures Faithful(TablesAt(turns, n))
  {
    if n > 0 {
      LogRebuildsRow(turns, n - 1);
      HistoryIsConsistent(turns, n - 1);
      StepKeepsFaithful(TablesAt(turns, n - 1), turns[n - 1].call, turns[n - 1].reply, turns[n - 1].after);
    }
  }

  /**
   `append_event` accepts reserved names. One such append leaves the log faithful exactly when
   its name is not significant, or it repeats RUN_CREATED on a run that never moved.
   */
  lemma ReservedNameBreaksReplay(t: Tables, id: RunId, name: string, status: Option<TerminalStatus>,
                                 reply: Reply, after: Tables)
    requires Consistent(t) && Faithful(t) && id in t.runs && EventName(name)
    requires Transacts(t, AppendEvent(id, name, status), reply, after)
    ensures Faithful(after) <==> !Significant(Named(name)) || (Named(name) == RUN_CREATED && t.runs[id].row.revision == 0)
  {
    var row, eventType := t.runs[id].row, Named(name);
    AppendStamps(t, id, name, status, reply, after);
    StampedReplay(t, id, eventType, row, status);
    OnlyOneLogMatters(t, after, id, Event(id, MaxSequence(t.events, id) + 1, eventType, row.phase, row.terminal, status));
    FoldedReserved(row, Event(id, 0, eventType, row.phase, row.terminal, status));
  }

  lemma AppendStamps(t: Tables, id: RunId, name: string, status: Option<TerminalStatus>, reply: Reply, after: Tables)
    requires id in t.runs && EventName(name) && Transacts(t, AppendEvent(id, name, status), reply, after)
    ensures after == Stamp(t, id, Named(name), t.runs[id].row, status)
  {
  }

  lemma OnlyOneLogMatters(t: Tables, after: Tables, id: RunId, e: Event)
    requires Faithful(t) && id in t.runs && after.runs == t.runs && after.events == t.events + [e] && e.runId == id
    ensures Faithful(after) <==> Replay(Log(after.events, id)) == ViewOf(t.runs[id].row)
  {
    forall other | other in t.runs && other != id
      ensures Log(after.events, other) == Log(t.events, other)
    {
      LogOfAppend(t.events, e, other);
    }
  }

  /** What an event under a reserved name does to the view of an unmoved row. */
  lemma FoldedReserved(row: Row, e: Event)
    requires ValidRow(row) && e.phase == row.phase && e.terminal == row.terminal
    ensures Fold(ViewOf(row), e) == ViewOf(row) <==>
            !Significant(e.eventType) || (e.eventType == RUN_CREATED && row.revision == 0)
  {
  }

  /** A turn that is not an accepted append under a name a replay reads, or one that only repeats what
      the replay says of a run that never moved. */
  predicate Harmless(turn: Turn) {
    var (t, c) := (turn.before, turn.call);
    c.AppendEvent? && EventName(c.name) && c.id in t.runs && Significant(Named(c.name)) ==>
      Named(c.name) == RUN_CREATED && t.runs[c.id].row.revision == 0
  }

  lemma TurnKeepsFaithfulExactlyWhen(turn: Turn)
    requires Consistent(turn.before) && Faithful(turn.before)
    requires Transacts(turn.before, turn.call, turn.reply, turn.after)
    ensures Faithful(turn.after) <==> Harmless(turn)
  {
    var (t, c) := (turn.before, turn.call);
    if Honest(c) {
      StepKeepsFaithful(t, c, turn.reply, turn.after);
    } else if EventName(c.name) && c.id in t.runs {
      ReservedNameBreaksReplay(t, c.id, c.name, c.status, turn.reply, turn.after);
    } else {
      assert turn.after == t;
    }
  }

  ghost predicate FaithfulThroughout(turns: seq<Turn>, n: nat)
    requires n <= |turns|
  {
    forall k :: 0 <= k <= n ==> Faithful(TablesAt(turns, k))
  }

  ghost predicate HarmlessThroughout(turns: seq<Turn>, n: nat)
    requires n <= |turns|
  {
    forall i :: 0 <= i < n ==> Harmless(turns[i])
  }

  lemma FaithfulOneMore(turns: seq<Turn>, n: nat)
    requires 0 < n <= |turns|
    ensures FaithfulThroughout(turns, n) <==> FaithfulThroughout(turns, n - 1) && Faithful(TablesAt(turns, n))
  {
  }

  lemma HarmlessOneMore(turns: seq<Turn>, n: nat)
    requires 0 < n <= |turns|
    ensures HarmlessThroughout(turns, n) <==> HarmlessThroughout(turns, n - 1) && Harmless(turns[n - 1])
  {
  }

  /** Over every history: the log has rebuilt every row at every moment exactly when every turn was
      harmless. */
  lemma {:induction false} ReplayHoldsThroughoutExactlyWhen(turns: seq<Turn>, n: nat)
    requires IsHistory(turns) && n <= |turns|
    ensures FaithfulThroughout(turns, n) <==> HarmlessThroughout(turns, n)
  {
    if n == 0 {
      assert TablesAt(turns, 0) == EMPTY;
    } else {
      ReplayHoldsThroughoutExactlyWhen(turns, n - 1);
      FaithfulOneMore(turns, n);
      HarmlessOneMore(turns, n);
      NextReplayHolds(turns, n);
    }
  }

  lemma NextReplayHolds(turns: seq<Turn>, n: nat)
    requires IsHistory(turns) && 0 < n <= |turns|
    ensures FaithfulThroughout(turns, n - 1) ==> (Faithful(TablesAt(turns, n)) <==> Harmless(turns[n - 1]))
  {
    HistoryIsConsistent(turns, n - 1);
    assert turns[n - 1].before == TablesAt(turns, n - 1);
    if Faithful(TablesAt(turns, n - 1)) {
      TurnKeepsFaithfulExactlyWhen(turns[n - 1]);
    }
  }

  /** A replay once wrong may come right again: RUN_CREATED and then PHASE_TRANSITIONED appended to a
      run that has moved exactly once. */
  lemma WrongReplayMayMend(t: Tables, id: RunId, reply: Reply, mid: Tables, reply': Reply, after: Tables)
    requires Consistent(t) && Faithful(t) && id in t.runs && t.runs[id].row.revision == 1 && t.runs[id].row.phase != CleaningUp
    requires Transacts(t, AppendEvent(id, "RUN_CREATED", None), reply, mid)
    requires Transacts(mid, AppendEvent(id, "PHASE_TRANSITIONED", None), reply', after)
    ensures !Faithful(mid) && Faithful(after)
  {
    ReservedTexts();
    AppendStamps(t, id, "RUN_CREATED", None, reply, mid);
    AppendStamps(mid, id, "PHASE_TRANSITIONED", None, reply', after);
    ReservedNameBreaksReplay(t, id, "RUN_CREATED", None, reply, mid);
    StampsMend(t, id, mid, after);
  }

  lemma ReservedTexts()
    ensures EventName("RUN_CREATED") && EventName("PHASE_TRANSITIONED")
    ensures Named("RUN_CREATED") == RUN_CREATED && Named("PHASE_TRANSITIONED") == PHASE_TRANSITIONED
  {
  }

  lemma StampsMend(t: Tables, id: RunId, mid: Tables, after: Tables)
    requires Logged(t) && Faithful(t) && id in t.runs && t.runs[id].row.revision == 1 && t.runs[id].row.phase != CleaningUp
    requires mid == Stamp(t, id, RUN_CREATED, t.runs[id].row, None) && after == Stamp(mid, id, PHASE_TRANSITIONED, t.runs[id].row, None)
    ensures Faithful(after)
  {
    var row := t.runs[id].row;
    AppendedReplay(t, id, RUN_CREATED, row, mid);
    StampedStaysNumbered(t, id, RUN_CREATED, row);
    AppendedReplay(mid, id, PHASE_TRANSITIONED, row, after);
    MovedOnce(row, id);
  }

  lemma StampedStaysNumbered(t: Tables, id: RunId, eventType: EventType, row: Row)
    requires Numbered(Log(t.events, id))
    ensures Numbered(Log(Stamp(t, id, eventType, row, None).events, id))
  {
    StampedLog(t, id, eventType, row, None);
  }

  /** Appending to one run's log folds the event into its replay and leaves every other replay. */
  lemma AppendedReplay(t: Tables, id: RunId, eventType: EventType, row: Row, after: Tables)
    requires Numbered(Log(t.events, id)) && after == Stamp(t, id, eventType, row, None)
    ensures Replay(Log(after.events, id))
            == Fold(Replay(Log(t.events, id)), Event(id, 0, eventType, row.phase, row.terminal, None))
    ensures forall other :: other != id ==> Log(after.events, other) == Log(t.events, other)
  {
    StampedReplay(t, id, eventType, row, None);
    StampExtendsOneLog(t, id, eventType, row, None);
  }

  lemma MovedOnce(row: Row, id: RunId)
    requires ValidRow(row) && row.revision == 1 && row.phase != CleaningUp
    ensures Fold(Fold(ViewOf(row), Event(id, 0, RUN_CREATED, row.phase, row.terminal, None)),
                 Event(id, 0, PHASE_TRANSITIONED, row.phase, row.terminal, None)) == ViewOf(row)
  {
  }

  // ---------------------------------------------------------------- lease exclusion

  /** What an outside observer of calls and replies knows: the expiry last granted to whom, and the clock. */
  datatype Grants = Grants(clock: int, mutation: map<RunId, int>, worker: map<(RunId, string), int>)

  function Timed(c: Call): Option<int> {
    match c
    case Acquire(_, _, now) => Some(now)
    case Claim(_, _, _, now) => Some(now)
    case Renew(_, _, _, now) => Some(now)
    case _ => None
  }

  function Observe(g: Grants, c: Call, reply: Reply): Grants {
    var h := if Timed(c).Some? then g.(clock := Timed(c).value) else g;
    if c.Acquire? && reply.Granted? then h.(mutation := h.mutation[c.id := reply.expiresAt])
    else if c.Release? && reply == Released(true) then h.(mutation := h.mutation - {c.id})
    else if c.Finish? && reply.Done? then h.(mutation := h.mutation - {c.id})
    else if c.Claim? && reply.Claimed? then h.(worker := h.worker[(reply.id, c.worker) := reply.expiresAt])
    else if c.Renew? && reply.Granted? then h.(worker := h.worker[(c.id, c.worker) := reply.expiresAt])
    else if c.Quit? && reply == Released(true) then h.(worker := h.worker - {(c.id, c.worker)})
    else h
  }

  function Observed(turns: seq<Turn>, n: nat, epoch: int): Grants
    requires n <= |turns|
  {
    if n == 0 then Grants(epoch, map[], map[])
    else Observe(Observed(turns, n - 1, epoch), turns[n - 1].call, turns[n - 1].reply)
  }

  ghost predicate ClockNeverRunsBack(turns: seq<Turn>, epoch: int) {
    forall i :: 0 <= i < |turns| && Timed(turns[i].call).Some? ==>
      Observed(turns, i, epoch).clock <= Timed(turns[i].call).value
  }

  /** Every grant that has not expired is the one recorded in the tables. */
  ghost predicate LiveMutationIsHeld(t: Tables, g: Grants) {
    forall id :: id in g.mutation && g.mutation[id] > g.clock ==>
      t.lease.Some? && t.lease.value.runId == id && t.lease.value.expiresAt == g.mutation[id]
  }

  ghost predicate LiveWorkersAreHeld(t: Tables, g: Grants) {
    forall id, w :: (id, w) in g.worker && g.worker[(id, w)] > g.clock ==>
      id in t.workers && t.workers[id].workerId == w && t.workers[id].expiresAt == g.worker[(id, w)]
  }

  ghost predicate LiveGrantsAreHeld(t: Tables, g: Grants) {
    LiveMutationIsHeld(t, g) && LiveWorkersAreHeld(t, g)
  }

  lemma StepKeepsLiveMutation(t: Tables, g: Grants, c: Call, reply: Reply, after: Tables)
    requires Transacts(t, c, reply, after) && LiveMutationIsHeld(t, g)
    requires Timed(c).Some? ==> g.clock <= Timed(c).value
    ensures LiveMutationIsHeld(after, Observe(g, c, reply))
  {
    if c.Acquire? {
      AcquireKeepsLiveMutation(t, g, c, reply, after);
    } else if !(c.Release? || c.Finish?) {
      OthersKeepLease(t, c, reply, after);
    }
  }

  lemma OthersKeepLease(t: Tables, c: Call, reply: Reply, after: Tables)
    requires Transacts(t, c, reply, after) && !c.Acquire? && !c.Release? && !c.Finish?
    ensures after.lease == t.lease
  {
  }

  lemma AcquireKeepsLiveMutation(t: Tables, g: Grants, c: Call, reply: Reply, after: Tables)
    requires Transacts(t, c, reply, after) && LiveMutationIsHeld(t, g) && c.Acquire? && g.clock <= c.now
    ensures LiveMutationIsHeld(after, Observe(g, c, reply))
  {
  }

  lemma StepKeepsLiveWorkers(t: Tables, g: Grants, c: Call, reply: Reply, after: Tables)
    requires Transacts(t, c, reply, after) && LiveWorkersAreHeld(t, g)
    requires Timed(c).Some? ==> g.clock <= Timed(c).value
    ensures LiveWorkersAreHeld(after, Observe(g, c, reply))
  {
    if c.Claim? {
      ClaimKeepsLiveWorkers(t, g, c, reply, after);
    } else if c.Renew? || c.Quit? {
      HolderKeepsLiveWorkers(t, g, c, reply, after);
    } else {
      OthersKeepWorkers(t, c, reply, after);
    }
  }

  lemma OthersKeepWorkers(t: Tables, c: Call, reply: Reply, after: Tables)
    requires Transacts(t, c, reply, after) && !c.Claim? && !c.Renew? && !c.Quit?
    ensures after.workers == t.workers
  {
  }

  lemma ClaimKeepsLiveWorkers(t: Tables, g: Grants, c: Call, reply: Reply, after: Tables)
    requires Transacts(t, c, reply, after) && LiveWorkersAreHeld(t, g) && c.Claim? && g.clock <= c.now
    ensures LiveWorkersAreHeld(after, Observe(g, c, reply))
  {
  }

  lemma HolderKeepsLiveWorkers(t: Tables, g: Grants, c: Call, reply: Reply, after: Tables)
    requires Transacts(t, c, reply, after) && LiveWorkersAreHeld(t, g) && (c.Renew? || c.Quit?)
    requires Timed(c).Some? ==> g.clock <= Timed(c).value
    ensures LiveWorkersAreHeld(after, Observe(g, c, reply))
  {
  }

  lemma {:induction false} HistoryHoldsLiveGrants(turns: seq<Turn>, n: nat, epoch: int)
    requires IsHistory(turns) && ClockNeverRunsBack(turns, epoch) && n <= |turns|
    ensures LiveGrantsAreHeld(TablesAt(turns, n), Observed(turns, n, epoch))
  {
    if n > 0 {
      HistoryHoldsLiveGrants(turns, n - 1, epoch);
      var t, g, turn := TablesAt(turns, n - 1), Observed(turns, n - 1, epoch), turns[n - 1];
      StepKeepsLiveMutation(t, g, turn.call, turn.reply, turn.after);
      StepKeepsLiveWorkers(t, g, turn.call, turn.reply, turn.after);
    }
  }

  /** When the mutation lease is granted, the latest grant to any other run has expired or was removed. */
  lemma MutationLeaseExcludes(turns: seq<Turn>, n: nat, epoch: int, other: RunId)
    requires IsHistory(turns) && ClockNeverRunsBack(turns, epoch) && n < |turns|
    requires turns[n].call.Acquire? && turns[n].reply.Granted? && other != turns[n].call.id
    ensures var g := Observed(turns, n, epoch);
            other in g.mutation ==> g.mutation[other] <= turns[n].call.now
  {
    HistoryHoldsLiveGrants(turns, n, epoch);
    var t := TablesAt(turns, n);
    assert Rejection(t, turns[n].call).None?;
  }

  /** When a run is claimed or renewed, the latest grant of that run to any other worker has expired or was removed. */
  lemma WorkerLeaseExcludes(turns: seq<Turn>, n: nat, epoch: int, other: string)
    requires IsHistory(turns) && ClockNeverRunsBack(turns, epoch) && n < |turns|
    requires (turns[n].call.Claim? && turns[n].reply.Claimed?) || (turns[n].call.Renew? && turns[n].reply.Granted?)
    requires other != turns[n].call.worker
    ensures var g, id := Observed(turns, n, epoch), if turns[n].call.Claim? then turns[n].reply.id else turns[n].call.id;
            (id, other) in g.worker ==> g.worker[(id, other)] <= turns[n].call.now
  {
    HistoryHoldsLiveGrants(turns, n, epoch);
    assert Rejection(TablesAt(turns, n), turns[n].call).None?;
  }

  /** At every moment at most one run has an unexpired mutation lease, and each run at most one worker. */
  lemma AtMostOneLiveGrant(turns: seq<Turn>, n: nat, epoch: int)
    requires IsHistory(turns) && ClockNeverRunsBack(turns, epoch) && n <= |turns|
    ensures var g := Observed(turns, n, epoch);
            && (forall a, b :: a in g.mutation && b in g.mutation && a != b ==>
                  g.mutation[a] <= g.clock || g.mutation[b] <= g.clock)
            && (forall id, v, w :: (id, v) in g.worker && (id, w) in g.worker && v != w ==>
                  g.worker[(id, v)] <= g.clock || g.worker[(id, w)] <= g.clock)
  {
    HistoryHoldsLiveGrants(turns, n, epoch);
  }
}
