/**
 The run store of controller/run_store.py: the runs, run_events, mutation_lease and
 worker_leases tables, changed by one transaction at a time. Times are microseconds.
 */
module RunStore {
  import opened Wrappers
  import opened RunContracts
  import opened RunLog

  datatype RunEntry = RunEntry(requestId: string, spec: string, createdAt: int, row: Row)

  datatype MutationLease = MutationLease(runId: RunId, acquiredAt: int, heartbeatAt: int, expiresAt: int)

  datatype WorkerLease = WorkerLease(workerId: string, acquiredAt: int, heartbeatAt: int, expiresAt: int)

  /** The whole database. */
  datatype Tables = Tables(
    runs: map<RunId, RunEntry>,
    events: seq<Event>,
    lease: Option<MutationLease>,
    workers: map<RunId, WorkerLease>)

  const EMPTY := Tables(map[], [], None, map[])

  /** The calls a client can make. `now` is the clock reading of the calls that grant leases. */
  datatype Call =
    | CreateOrGet(candidate: RunId, requestId: string, spec: string, createdAt: int)
    | AppendEvent(id: RunId, name: string, status: Option<TerminalStatus>)
    | Transition(id: RunId, next: RunPhase)
    | Cleanup(id: RunId, wanted: TerminalStatus, abort: bool)
    | Finish(id: RunId, verified: bool)
    | Acquire(id: RunId, ttl: int, now: int)
    | Release(id: RunId)
    | Claim(worker: string, phases: set<RunPhase>, ttl: int, now: int)
    | Renew(id: RunId, worker: string, ttl: int, now: int)
    | Quit(id: RunId, worker: string)

  /** What the caller is told. */
  datatype Reply =
    | Done(row: Row)
    | Opened(id: RunId, inserted: bool)
    | Granted(expiresAt: int)
    | Claimed(id: RunId, expiresAt: int)
    | NothingToClaim
    | Released(removed: bool)
    | Refused(error: StoreError)

  const SECOND := 1_000_000

  function Stamp(t: Tables, id: RunId, eventType: EventType, row: Row, status: Option<TerminalStatus>): Tables {
    t.(events := t.events +
        [Event(id, MaxSequence(t.events, id) + 1, eventType, row.phase, row.terminal, status)])
  }

  function SetRow(t: Tables, id: RunId, row: Row): Tables
    requires id in t.runs
  {
    t.(runs := t.runs[id := t.runs[id].(row := row)])
  }

  // ---------------------------------------------------------------- one transaction

  predicate SafeName(s: string, low: nat, high: nat) {
    && low <= |s| <= high
    && (forall i :: 0 <= i < |s| ==> 'a' <= s[i] <= 'z' || '0' <= s[i] <= '9' || s[i] in "._-")
    && (|s| > 0 ==> s[0] !in "._-")
  }

  predicate EventName(name: string) {
    && 3 <= |name| <= 64
    && 'A' <= name[0] <= 'Z'
    && forall i :: 0 <= i < |name| ==> 'A' <= name[i] <= 'Z' || '0' <= name[i] <= '9' || name[i] == '_'
  }

  function AfterAcquire(t: Tables, id: RunId, ttl: int, now: int): (Reply, Tables)
    requires id in t.runs
  {
    var row, expires := t.runs[id].row, now + ttl * SECOND;
    if row.terminal.Some? then (Refused(LeaseConflict), t)
    else if t.lease.Some? && t.lease.value.runId != id && t.lease.value.expiresAt > now then
      (Refused(LeaseConflict), t)
    else
      var acquired := if t.lease.Some? && t.lease.value.runId == id && t.lease.value.expiresAt > now
                      then t.lease.value.acquiredAt else now;
      (Granted(expires),
       Stamp(t.(lease := Some(MutationLease(id, acquired, now, expires))), id, MUTATION_LEASE_ACQUIRED, row, None))
  }

  function AfterFinish(t: Tables, id: RunId, verified: bool): (Reply, Tables)
    requires id in t.runs
  {
    match FinishCleanup(t.runs[id].row, verified)
    case Err(e) => (Refused(e), t)
    case Ok((row, terminated)) =>
      if !terminated then (Done(row), t)
      else
        var stamped := Stamp(SetRow(t, id, row), id, RUN_TERMINATED, row, None);
        (Done(row), stamped.(lease := if t.lease.Some? && t.lease.value.runId == id then None else t.lease))
  }

  function AfterCleanup(t: Tables, id: RunId, wanted: TerminalStatus, abort: bool): (Reply, Tables)
    requires id in t.runs
  {
    match RequestCleanup(t.runs[id].row, wanted, abort)
    case Err(e) => (Refused(e), t)
    case Ok((row, logged)) =>
      var updated := SetRow(t, id, row);
      (Done(row),
       if logged then Stamp(updated, id, if abort then ABORT_REQUESTED else CLEANUP_REQUESTED, row, Some(wanted))
       else updated)
  }

  /** `DELETE FROM worker_leases WHERE expires_at <= now`. */
  function Unexpired(workers: map<RunId, WorkerLease>, now: int): map<RunId, WorkerLease> {
    map id | id in workers && workers[id].expiresAt > now :: workers[id]
  }

  /** No phases given means all of them, so an empty selection never reaches the query. */
  function Selected(phases: set<RunPhase>): set<RunPhase> {
    if phases == {} then
      {Created, Scanning, Matching, Designing, Qualifying, AwaitingApproval, Baselining, Executing,
       Recovering, Evaluating, RunPhase.Scoring, CleaningUp}
    else phases
  }

  ghost predicate Claimable(t: Tables, id: RunId, phases: set<RunPhase>, now: int) {
    && id in t.runs
    && t.runs[id].row.terminal.None?
    && t.runs[id].row.phase in phases
    && (id in t.workers ==> t.workers[id].expiresAt <= now)
  }

  /** A claim takes some oldest claimable run; the query leaves ties of `created_at` open. */
  ghost predicate ClaimStep(t: Tables, c: Call, reply: Reply, after: Tables)
    requires c.Claim?
  {
    if !SafeName(c.worker, 3, 64) || !(30 <= c.ttl <= 3600) then
      reply == Refused(InvalidArgument) && after == t
    else
      var swept := t.(workers := Unexpired(t.workers, c.now));
      match reply
      case NothingToClaim =>
        && (forall id :: !Claimable(t, id, Selected(c.phases), c.now))
        && after == swept
      case Claimed(id, expires) =>
        && Claimable(t, id, Selected(c.phases), c.now)
        && (forall other :: Claimable(t, other, Selected(c.phases), c.now) ==>
              t.runs[id].createdAt <= t.runs[other].createdAt)
        && expires == c.now + c.ttl * SECOND
        && after == Stamp(swept.(workers := swept.workers[id := WorkerLease(c.worker, c.now, c.now, expires)]),
                          id, WORKER_CLAIMED, t.runs[id].row, None)
      case _ => false
  }

  function AfterRenew(t: Tables, id: RunId, worker: string, ttl: int, now: int): (Reply, Tables) {
    if id !in t.workers || t.workers[id].workerId != worker || t.workers[id].expiresAt <= now then
      (Refused(LeaseConflict), t)
    else
      var expires := now + ttl * SECOND;
      (Granted(expires),
       t.(workers := t.workers[id := t.workers[id].(heartbeatAt := now, expiresAt := expires)]))
  }

  /** A request id names one run for ever; asking again with another spec is refused. */
  ghost predicate CreateStep(t: Tables, c: Call, reply: Reply, after: Tables)
    requires c.CreateOrGet?
  {
    if exists id :: id in t.runs && t.runs[id].requestId == c.requestId then
      && after == t
      && exists id :: id in t.runs && t.runs[id].requestId == c.requestId
           && reply == if t.runs[id].spec == c.spec then Opened(id, false) else Refused(InvalidArgument)
    else if c.candidate in t.runs then reply == Refused(InvalidArgument) && after == t
    else
      && reply == Opened(c.candidate, true)
      && after == Stamp(t.(runs := t.runs[c.candidate := RunEntry(c.requestId, c.spec, c.createdAt, FRESH_ROW)]),
                        c.candidate, RUN_CREATED, FRESH_ROW, None)
  }

  function AfterTransition(t: Tables, id: RunId, next: RunPhase): (Reply, Tables)
    requires id in t.runs
  {
    match Advance(t.runs[id].row, next)
    case Err(e) => (Refused(e), t)
    case Ok(row) => (Done(row), Stamp(SetRow(t, id, row), id, PHASE_TRANSITIONED, row, None))
  }

  function AfterRelease(t: Tables, id: RunId): (Reply, Tables)
    requires id in t.runs
  {
    if t.lease.Some? && t.lease.value.runId == id then
      (Released(true), Stamp(t.(lease := None), id, MUTATION_LEASE_RELEASED, t.runs[id].row, None))
    else (Released(false), t)
  }

  function AfterQuit(t: Tables, id: RunId, worker: string): (Reply, Tables) {
    if id in t.workers && t.workers[id].workerId == worker then
      (Released(true), t.(workers := t.workers - {id}))
    else (Released(false), t)
  }

  /** `RunNotFoundError` and the argument errors, raised before anything is written. */
  function Rejection(t: Tables, c: Call): Option<StoreError> {
    match c
    case AppendEvent(id, name, _) =>
      if !EventName(name) then Some(InvalidArgument) else if id !in t.runs then Some(RunNotFound) else None
    case Acquire(id, ttl, _) =>
      if !(5 <= ttl <= 600) then Some(InvalidArgument) else if id !in t.runs then Some(RunNotFound) else None
    case Transition(id, _) => if id !in t.runs then Some(RunNotFound) else None
    case Cleanup(id, _, _) => if id !in t.runs then Some(RunNotFound) else None
    case Finish(id, _) => if id !in t.runs then Some(RunNotFound) else None
    case Release(id) => if id !in t.runs then Some(RunNotFound) else None
    case Quit(id, _) => if id !in t.runs then Some(RunNotFound) else None
    case Renew(_, _, _, _) => None
    case Claim(_, _, _, _) => None
    case CreateOrGet(_, _, _, _) => None
  }

  /** One committed or rolled-back transaction: `reply` and `after` are what the code may produce. */
  ghost predicate Transacts(t: Tables, c: Call, reply: Reply, after: Tables) {
    if Rejection(t, c).Some? then reply == Refused(Rejection(t, c).value) && after == t
    else
      match c
      case CreateOrGet(_, _, _, _) => CreateStep(t, c, reply, after)
      case AppendEvent(id, name, status) =>
        reply == Done(t.runs[id].row) && after == Stamp(t, id, Named(name), t.runs[id].row, status)
      case Transition(id, next) => (reply, after) == AfterTransition(t, id, next)
      case Cleanup(id, wanted, abort) => (reply, after) == AfterCleanup(t, id, wanted, abort)
      case Finish(id, verified) => (reply, after) == AfterFinish(t, id, verified)
      case Acquire(id, ttl, now) => (reply, after) == AfterAcquire(t, id, ttl, now)
      case Release(id) => (reply, after) == AfterRelease(t, id)
      case Claim(_, _, _, _) => ClaimStep(t, c, reply, after)
      case Renew(id, worker, ttl, now) => (reply, after) == AfterRenew(t, id, worker, ttl, now)
      case Quit(id, worker) => (reply, after) == AfterQuit(t, id, worker)
  }

  // ---------------------------------------------------------------- the store itself

  class RunStore {
    var runs: map<RunId, RunEntry>
    var runEvents: seq<Event>
    var mutationLease: Option<MutationLease>
    var workerLeases: map<RunId, WorkerLease>

    ghost function Contents(): Tables
      reads this
    {
      Tables(runs, runEvents, mutationLease, workerLeases)
    }

    constructor ()
      ensures Contents() == EMPTY
    {
      runs, runEvents, mutationLease, workerLeases := map[], [], None, map[];
    }

    /** `_append_event`, inside the transaction of its caller. */
    method Append(id: RunId, eventType: EventType, row: Row, status: Option<TerminalStatus>)
      modifies this`runEvents
      ensures Contents() == Stamp(old(Contents()), id, eventType, row, status)
    {
      var sequence := MaxSequence(runEvents, id) + 1;
      runEvents := runEvents + [Event(id, sequence, eventType, row.phase, row.terminal, status)];
    }

    method CreateOrGet(candidate: RunId, requestId: string, spec: string, now: int) returns (reply: Reply)
      modifies this
      ensures Transacts(old(Contents()), Call.CreateOrGet(candidate, requestId, spec, now), reply, Contents())
    {
      var same := set id | id in runs && runs[id].requestId == requestId;
      if same != {} {
        var id :| id in same;
        assert id in runs && runs[id].requestId == requestId;
        return if runs[id].spec == spec then Opened(id, false) else Refused(InvalidArgument);
      }
      assert !exists id :: id in runs && runs[id].requestId == requestId by {
        forall id | id in runs ensures runs[id].requestId != requestId {
          assert id !in same;
        }
      }
      if candidate in runs {
        return Refused(InvalidArgument);
      }
      runs := runs[candidate := RunEntry(requestId, spec, now, FRESH_ROW)];
      Append(candidate, RUN_CREATED, FRESH_ROW, None);
      reply := Opened(candidate, true);
    }

    method AppendEvent(id: RunId, name: string, status: Option<TerminalStatus>) returns (reply: Reply)
      modifies this
      ensures Transacts(old(Contents()), Call.AppendEvent(id, name, status), reply, Contents())
    {
      if !EventName(name) { return Refused(InvalidArgument); }
      if id !in runs { return Refused(RunNotFound); }
      Append(id, Named(name), runs[id].row, status);
      reply := Done(runs[id].row);
    }

    method Transition(id: RunId, next: RunPhase) returns (reply: Reply)
      modifies this
      ensures Transacts(old(Contents()), Call.Transition(id, next), reply, Contents())
    {
      if id !in runs { return Refused(RunNotFound); }
      var row := runs[id].row;
      if row.terminal.Some? { return Refused(TerminalRunCannotTransition); }
      if next !in AllowedNext(row.phase) { return Refused(EdgeNotAllowed(row.phase, next)); }
      var updated := row.(phase := next, revision := row.revision + 1);
      runs := runs[id := runs[id].(row := updated)];
      Append(id, PHASE_TRANSITIONED, updated, None);
      reply := Done(updated);
    }

    method RequestCleanup(id: RunId, wanted: TerminalStatus, abort: bool) returns (reply: Reply)
      modifies this
      ensures Transacts(old(Contents()), Cleanup(id, wanted, abort), reply, Contents())
    {
      if id !in runs { return Refused(RunNotFound); }
      var row := runs[id].row;
      if row.terminal.Some? {
        assert runs == runs[id := runs[id].(row := row)];
        return Done(row);
      }
      if row.phase == CleaningUp {
        if row.desired != Some(wanted) { return Refused(CleanupStatusConflict); }
        if abort && !row.abortRequested {
          row := row.(abortRequested := true);
        }
        runs := runs[id := runs[id].(row := row)];
        return Done(row);
      }
      row := row.(phase := CleaningUp, desired := Some(wanted),
                  abortRequested := abort || row.abortRequested, revision := row.revision + 1);
      runs := runs[id := runs[id].(row := row)];
      Append(id, if abort then ABORT_REQUESTED else CLEANUP_REQUESTED, row, Some(wanted));
      reply := Done(row);
    }

    method FinishCleanup(id: RunId, verified: bool) returns (reply: Reply)
      modifies this
      ensures Transacts(old(Contents()), Finish(id, verified), reply, Contents())
    {
      if id !in runs { return Refused(RunNotFound); }
      var row := runs[id].row;
      if row.terminal.Some? { return Done(row); }
      if row.phase != CleaningUp || row.desired.None? { return Refused(CleanupNotRequested); }
      row := row.(terminal := if verified then row.desired else Some(ResetFailed),
                  revision := row.revision + 1,
                  lastError := if verified then None else Some("cleanup verification failed"));
      runs := runs[id := runs[id].(row := row)];
      Append(id, RUN_TERMINATED, row, None);
      if mutationLease.Some? && mutationLease.value.runId == id {
        mutationLease := None;
      }
      reply := Done(row);
    }

    method AcquireMutationLease(id: RunId, ttl: int, now: int) returns (reply: Reply)
      modifies this
      ensures Transacts(old(Contents()), Acquire(id, ttl, now), reply, Contents())
    {
      if !(5 <= ttl <= 600) { return Refused(InvalidArgument); }
      if id !in runs { return Refused(RunNotFound); }
      if runs[id].row.terminal.Some? { return Refused(LeaseConflict); }
      var acquired := now;
      if mutationLease.Some? {
        var held := mutationLease.value;
        if held.runId != id && held.expiresAt > now { return Refused(LeaseConflict); }
        if held.runId == id && held.expiresAt > now { acquired := held.acquiredAt; }
      }
      mutationLease := Some(MutationLease(id, acquired, now, now + ttl * SECOND));
      Append(id, MUTATION_LEASE_ACQUIRED, runs[id].row, None);
      reply := Granted(now + ttl * SECOND);
    }

    method ReleaseMutationLease(id: RunId) returns (reply: Reply)
      modifies this
      ensures Transacts(old(Contents()), Release(id), reply, Contents())
    {
      if id !in runs { return Refused(RunNotFound); }
      if mutationLease.Some? && mutationLease.value.runId == id {
        mutationLease := None;
        Append(id, MUTATION_LEASE_RELEASED, runs[id].row, None);
        return Released(true);
      }
      reply := Released(false);
    }

    method ClaimNextRun(worker: string, phases: set<RunPhase>, ttl: int, now: int) returns (reply: Reply)
      modifies this
      ensures Transacts(old(Contents()), Claim(worker, phases, ttl, now), reply, Contents())
    {
      if !SafeName(worker, 3, 64) || !(30 <= ttl <= 3600) { return Refused(InvalidArgument); }
      workerLeases := Unexpired(workerLeases, now);
      var free := FreeRuns(runs, workerLeases, Selected(phases));
      FreeRunsAreClaimable(old(Contents()), Selected(phases), now);
      if free == {} { return NothingToClaim; }
      OldestExists(runs, free);
      var id :| id in free && forall other :: other in free ==> runs[id].createdAt <= runs[other].createdAt;
      workerLeases := workerLeases[id := WorkerLease(worker, now, now, now + ttl * SECOND)];
      Append(id, WORKER_CLAIMED, runs[id].row, None);
      reply := Claimed(id, now + ttl * SECOND);
    }

    method RenewWorkerLease(id: RunId, worker: string, ttl: int, now: int) returns (reply: Reply)
      modifies this
      ensures Transacts(old(Contents()), Renew(id, worker, ttl, now), reply, Contents())
    {
      if id !in workerLeases || workerLeases[id].workerId != worker { return Refused(LeaseConflict); }
      if workerLeases[id].expiresAt <= now { return Refused(LeaseConflict); }
      workerLeases := workerLeases[id := workerLeases[id].(heartbeatAt := now, expiresAt := now + ttl * SECOND)];
      reply := Granted(now + ttl * SECOND);
    }

    method ReleaseWorkerLease(id: RunId, worker: string) returns (reply: Reply)
      modifies this
      ensures Transacts(old(Contents()), Quit(id, worker), reply, Contents())
    {
      if id !in runs { return Refused(RunNotFound); }
      if id in workerLeases && workerLeases[id].workerId == worker {
        workerLeases := workerLeases - {id};
        return Released(true);
      }
      reply := Released(false);
    }
  }

  /** The rows of the claim query: live runs in a selected phase that no unexpired lease covers. */
  function FreeRuns(runs: map<RunId, RunEntry>, leases: map<RunId, WorkerLease>, phases: set<RunPhase>): set<RunId> {
    set id | id in runs && runs[id].row.terminal.None? && id !in leases && runs[id].row.phase in phases
  }

  lemma FreeRunsAreClaimable(t: Tables, phases: set<RunPhase>, now: int)
    ensures forall id :: id in FreeRuns(t.runs, Unexpired(t.workers, now), phases) <==> Claimable(t, id, phases, now)
  {
  }

  /** The `ORDER BY created_at LIMIT 1` of the claim query always finds a row in a non-empty result. */
  lemma OldestExists(runs: map<RunId, RunEntry>, free: set<RunId>)
    requires free != {} && free <= runs.Keys
    ensures exists id :: id in free && forall other :: other in free ==> runs[id].createdAt <= runs[other].createdAt
    decreases |free|
  {
    var some :| some in free;
    if free != {some} {
      var rest := free - {some};
      assert rest != {} by { assert free == rest + {some}; }
      OldestExists(runs, rest);
      var id :| id in rest && forall other :: other in rest ==> runs[id].createdAt <= runs[other].createdAt;
      var best := if runs[some].createdAt < runs[id].createdAt then some else id;
      assert forall other :: other in free ==> other == some || other in rest;
      assert best in free && forall other :: other in free ==> runs[best].createdAt <= runs[other].createdAt;
    }
  }
}
