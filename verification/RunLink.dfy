/**
 Why the one run of the workflows is a run of the store: a transaction of controller/run_store.py
 acts on a run's row as the steps of RunControl do, whoever made it.
 */
module RunLink {
  import opened Wrappers
  import opened RunContracts
  import opened RunLog
  import opened RunStore
  import opened RunHistory

  /** What a call means for the row of one run. */
  function Meaning(c: Call, id: RunId): Option<RowAction> {
    match c
    case Transition(target, next) => if target == id then Some(ToAdvance(next)) else None
    case Cleanup(target, wanted, abort) => if target == id then Some(ToRequestCleanup(wanted, abort)) else None
    case Finish(target, verified) => if target == id then Some(ToFinishCleanup(verified)) else None
    case _ => None
  }

  function ActIf(row: Row, action: Option<RowAction>): Row {
    if action.None? then row else Act(row, action.value)
  }

  /** What a workflow is told of its step. */
  function Told(row: Row, action: RowAction): Reply {
    match action
    case ToAdvance(next) => (match Advance(row, next) case Ok(r) => Done(r) case Err(e) => Refused(e))
    case ToRequestCleanup(wanted, abort) => (match RequestCleanup(row, wanted, abort) case Ok((r, _)) => Done(r) case Err(e) => Refused(e))
    case ToFinishCleanup(verified) => (match FinishCleanup(row, verified) case Ok((r, _)) => Done(r) case Err(e) => Refused(e))
  }

  lemma MoverActs(t: Tables, c: Call, reply: Reply, after: Tables, id: RunId)
    requires Transacts(t, c, reply, after) && id in t.runs && Meaning(c, id).Some?
    ensures id in after.runs && after.runs[id].row == Act(t.runs[id].row, Meaning(c, id).value)
    ensures reply == Told(t.runs[id].row, Meaning(c, id).value)
  {
  }

  /** Every transaction changes a run's row exactly as a step of the workflows' run does, or not at
      all, and answers a step of that run as the workflows' run answers it. */
  lemma TransactionsAreRunSteps(t: Tables, c: Call, reply: Reply, after: Tables, id: RunId)
    requires Transacts(t, c, reply, after) && id in t.runs
    ensures id in after.runs && after.runs[id].row == ActIf(t.runs[id].row, Meaning(c, id))
    ensures Meaning(c, id).Some? ==> reply == Told(t.runs[id].row, Meaning(c, id).value)
  {
    if Meaning(c, id).Some? {
      MoverActs(t, c, reply, after, id);
    } else if c.Transition? || c.Cleanup? || c.Finish? {
      MovesLeaveOthers(t, c, reply, after, id);
    } else {
      OthersLeaveRows(t, c, reply, after, id);
    }
  }

  /** The transaction a workflow's step is. */
  function CallFor(id: RunId, action: RowAction): Call {
    match action
    case ToAdvance(next) => Transition(id, next)
    case ToRequestCleanup(wanted, abort) => Cleanup(id, wanted, abort)
    case ToFinishCleanup(verified) => Finish(id, verified)
  }

  /** Conversely, whatever the tables hold, each step of the workflows' run is a transaction of the
      store: with that answer and that row. */
  lemma RunStepsAreTransactions(t: Tables, id: RunId, action: RowAction) returns (after: Tables)
    requires id in t.runs
    ensures Transacts(t, CallFor(id, action), Told(t.runs[id].row, action), after)
    ensures id in after.runs && after.runs[id].row == Act(t.runs[id].row, action)
  {
    var c := CallFor(id, action);
    var done := match action
      case ToAdvance(next) => AfterTransition(t, id, next)
      case ToRequestCleanup(wanted, abort) => AfterCleanup(t, id, wanted, abort)
      case ToFinishCleanup(verified) => AfterFinish(t, id, verified);
    after := done.1;
    assert Transacts(t, c, done.0, after);
    MoverActs(t, c, done.0, after, id);
  }

  /** The steps a history made on one run's row. */
  function StepsOn(turns: seq<Turn>, n: nat, id: RunId): seq<RowAction>
    requires n <= |turns|
  {
    if n == 0 then []
    else
      var t := turns[n - 1];
      if id in t.before.runs && Meaning(t.call, id).Some? then StepsOn(turns, n - 1, id) + [Meaning(t.call, id).value]
      else StepsOn(turns, n - 1, id)
  }

  lemma {:induction false} ActAllOneMore(row: Row, actions: seq<RowAction>, action: RowAction)
    ensures ActAll(row, actions + [action]) == Act(ActAll(row, actions), action)
    decreases |actions|
  {
    if actions == [] {
      assert [action][1..] == [];
    } else {
      assert (actions + [action])[1..] == actions[1..] + [action];
      ActAllOneMore(Act(row, actions[0]), actions[1..], action);
    }
  }

  /** Over every history of the store the row of a run is what its own steps make of a fresh row: the
      one-run model loses nothing of the table. */
  lemma {:induction false} HistoryIsARun(turns: seq<Turn>, n: nat, id: RunId)
    requires IsHistory(turns) && n <= |turns|
    ensures id in TablesAt(turns, n).runs ==> TablesAt(turns, n).runs[id].row == ActAll(FRESH_ROW, StepsOn(turns, n, id))
    ensures id !in TablesAt(turns, n).runs ==> StepsOn(turns, n, id) == []
  {
    if n > 0 {
      HistoryIsARun(turns, n - 1, id);
      var t := turns[n - 1];
      assert t.before == TablesAt(turns, n - 1);
      if id in t.before.runs {
        TransactionsAreRunSteps(t.before, t.call, t.reply, t.after, id);
        if Meaning(t.call, id).Some? {
          ActAllOneMore(FRESH_ROW, StepsOn(turns, n - 1, id), Meaning(t.call, id).value);
        }
      } else if id in t.after.runs {
        NewRunIsFresh(t.before, t.call, t.reply, t.after, id);
      }
    }
  }

  lemma NewRunIsFresh(t: Tables, c: Call, reply: Reply, after: Tables, id: RunId)
    requires Transacts(t, c, reply, after) && id !in t.runs && id in after.runs
    ensures after.runs[id].row == FRESH_ROW
  {
    var ch := ShapeOf(t, c, reply, after);
  }

  /** A lease request of a live run for a lawful time is granted or refused as held, and leaves the
      row alone: either answer of the workflows' lease is possible, and no other. */
  lemma LeaseAnswers(t: Tables, id: RunId, ttl: int, now: int, reply: Reply, after: Tables)
    requires Transacts(t, Acquire(id, ttl, now), reply, after) && id in t.runs && 5 <= ttl <= 600
    ensures reply == Granted(now + ttl * SECOND) || reply == Refused(LeaseConflict)
    ensures reply.Granted? <==>
              t.runs[id].row.terminal.None? && (t.lease.Some? && t.lease.value.expiresAt > now ==> t.lease.value.runId == id)
    ensures after.runs == t.runs
  {
  }
}
