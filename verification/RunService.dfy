/**
 The service of controller/run_service.py: each operation is one store transaction followed by a
 rewrite of the run's mirror files, and may be killed between any two of those writes.
 */
module RunService {
  import opened Wrappers
  import opened RunLog
  import opened RunStore
  import opened RunHistory

  /** run-spec.json, run-state.json and events.jsonl of one run. */
  datatype Files = Files(spec: Option<string>, state: Option<RunEntry>, events: seq<Event>)

  type Mirror = map<RunId, Files>

  function FilesOf(mirror: Mirror, id: RunId): Files {
    if id in mirror then mirror[id] else Files(None, None, [])
  }

  /** The mirror after the first so many of the three writes of a sync. */
  function Written(mirror: Mirror, id: RunId, entry: RunEntry, log: seq<Event>, writes: nat): Mirror {
    var files := FilesOf(mirror, id);
    if writes == 0 then mirror
    else if writes == 1 then mirror[id := files.(spec := Some(entry.spec))]
    else if writes == 2 then mirror[id := files.(spec := Some(entry.spec), state := Some(entry))]
    else mirror[id := Files(Some(entry.spec), Some(entry), log)]
  }

  /** A mirror may lag behind the store but never contradicts it. */
  ghost predicate NeverLies(t: Tables, mirror: Mirror) {
    forall id :: id in mirror ==> id in t.runs && FilesFit(t, id, mirror[id])
  }

  ghost predicate FilesFit(t: Tables, id: RunId, files: Files)
    requires id in t.runs
  {
    && (files.spec.Some? ==> files.spec.value == t.runs[id].spec)
    && (files.state.Some? ==> files.state.value.row.revision <= t.runs[id].row.revision)
    && (files.state.Some? && files.state.value.row.terminal.Some? ==> files.state.value.row == t.runs[id].row)
    && files.events <= Log(t.events, id)
  }

  /** The mirror shows the run exactly as it is. */
  ghost predicate Current(t: Tables, mirror: Mirror, id: RunId) {
    id in t.runs && id in mirror && mirror[id] == Files(Some(t.runs[id].spec), Some(t.runs[id]), Log(t.events, id))
  }

  /** Which run an operation rewrites the mirror of, if any. */
  function Mirrored(call: Call, reply: Reply): Option<RunId> {
    match reply
    case Refused(_) => None
    case Opened(id, _) => Some(id)
    case Claimed(id, _) => Some(id)
    case NothingToClaim => None
    case Done(_) => Subject(call)
    case Granted(_) => if call.Renew? then None else Subject(call)
    case Released(removed) => if removed && call.Release? then Subject(call) else None
  }

  function Subject(call: Call): Option<RunId> {
    match call
    case AppendEvent(id, _, _) => Some(id)
    case Transition(id, _) => Some(id)
    case Cleanup(id, _, _) => Some(id)
    case Finish(id, _) => Some(id)
    case Acquire(id, _, _) => Some(id)
    case Release(id) => Some(id)
    case Renew(id, _, _, _) => Some(id)
    case Quit(id, _) => Some(id)
    case CreateOrGet(_, _, _, _) => None
    case Claim(_, _, _, _) => None
  }

  class ArtifactJournal {
    var files: Mirror

    constructor ()
      ensures files == map[]
    {
      files := map[];
    }

    /** `sync`: refuses a changed spec, otherwise rewrites the files one by one until killed. */
    method Sync(id: RunId, entry: RunEntry, log: seq<Event>, writes: nat) returns (accepted: bool)
      modifies this
      ensures accepted <==> FilesOf(old(files), id).spec in {None, Some(entry.spec)}
      ensures files == if accepted then Written(old(files), id, entry, log, writes) else old(files)
    {
      var mine := FilesOf(files, id);
      if mine.spec.Some? && mine.spec.value != entry.spec { return false; }
      accepted := true;
      if writes == 0 { return; }
      mine := mine.(spec := Some(entry.spec));
      files := files[id := mine];
      if writes == 1 { return; }
      mine := mine.(state := Some(entry));
      files := files[id := mine];
      if writes == 2 { return; }
      files := files[id := mine.(events := log)];
    }
  }

  class RunControlService {
    const store: RunStore
    const journal: ArtifactJournal

    ghost predicate Valid() reads store, journal {
      Consistent(store.Contents()) && NeverLies(store.Contents(), journal.files)
    }

    constructor ()
      ensures Valid() && fresh(store) && fresh(journal) && store.Contents() == EMPTY
    {
      store := new RunStore();
      journal := new ArtifactJournal();
      new;
      EmptyIsConsistent();
    }

    method Transact(call: Call) returns (reply: Reply)
      modifies store
      ensures Transacts(old(store.Contents()), call, reply, store.Contents())
    {
      match call
      case CreateOrGet(candidate, requestId, spec, createdAt) => reply := store.CreateOrGet(candidate, requestId, spec, createdAt);
      case AppendEvent(id, name, status) => reply := store.AppendEvent(id, name, status);
      case Transition(id, next) => reply := store.Transition(id, next);
      case Cleanup(id, wanted, abort) => reply := store.RequestCleanup(id, wanted, abort);
      case Finish(id, verified) => reply := store.FinishCleanup(id, verified);
      case Acquire(id, ttl, now) => reply := store.AcquireMutationLease(id, ttl, now);
      case Release(id) => reply := store.ReleaseMutationLease(id);
      case Claim(worker, phases, ttl, now) => reply := store.ClaimNextRun(worker, phases, ttl, now);
      case Renew(id, worker, ttl, now) => reply := store.RenewWorkerLease(id, worker, ttl, now);
      case Quit(id, worker) => reply := store.ReleaseWorkerLease(id, worker);
    }

    /** Any operation of the service, killed after `writes` of its mirror writes. The mirror never
        contradicts the store, the spec check never fails, and an operation that is not killed leaves
        the mirror of its run current. */
    method Serve(call: Call, writes: nat) returns (reply: Reply)
      requires Valid()
      modifies store, journal
      ensures Valid() && Transacts(old(store.Contents()), call, reply, store.Contents())
      ensures writes >= 3 && Mirrored(call, reply).Some? ==> Current(store.Contents(), journal.files, Mirrored(call, reply).value)
    {
      ghost var before := store.Contents();
      reply := Transact(call);
      ServiceStep(before, call, reply, store.Contents(), journal.files);
      var target := Mirrored(call, reply);
      if target.Some? {
        SyncRun(target.value, writes);
      }
    }

    /** `_sync`: the row and the whole log are read back and handed to the journal. */
    method SyncRun(id: RunId, writes: nat)
      requires Valid() && id in store.runs
      modifies journal
      ensures Valid()
      ensures writes >= 3 ==> Current(store.Contents(), journal.files, id)
    {
      ghost var t, mirror := store.Contents(), journal.files;
      var accepted := journal.Sync(id, store.runs[id], Log(store.runEvents, id), writes);
      assert accepted;
      SyncNeverLies(t, mirror, id, writes);
    }
  }

  // ---------------------------------------------------------------- why it holds

  lemma EmptyIsConsistent()
    ensures Consistent(EMPTY)
  {
  }

  lemma MirroredExists(t: Tables, call: Call, reply: Reply, after: Tables)
    requires Transacts(t, call, reply, after) && Mirrored(call, reply).Some?
    ensures Mirrored(call, reply).value in after.runs
  {
  }

  lemma SyncNeverLies(t: Tables, mirror: Mirror, id: RunId, writes: nat)
    requires NeverLies(t, mirror) && id in t.runs
    ensures NeverLies(t, Written(mirror, id, t.runs[id], Log(t.events, id), writes))
  {
    assert [] <= Log(t.events, id);
  }

  lemma {:induction false} LogGrows(events: seq<Event>, longer: seq<Event>, id: RunId)
    requires events <= longer
    ensures Log(events, id) <= Log(longer, id)
    decreases |longer|
  {
    if |events| < |longer| {
      LogGrows(events, longer[..|longer| - 1], id);
    } else {
      assert events == longer;
    }
  }

  lemma StepNeverLies(t: Tables, call: Call, reply: Reply, after: Tables, mirror: Mirror)
    requires Consistent(t) && Transacts(t, call, reply, after) && NeverLies(t, mirror)
    ensures NeverLies(after, mirror)
  {
    StepKeepsConsistent(t, call, reply, after);
    forall id | id in mirror
      ensures id in after.runs && FilesFit(after, id, mirror[id])
    {
      assert FilesFit(t, id, mirror[id]);
      StepKeepsTerminalRows(t, call, reply, after, id);
      LogGrows(t.events, after.events, id);
    }
  }

  lemma ServiceStep(t: Tables, call: Call, reply: Reply, after: Tables, mirror: Mirror)
    requires Consistent(t) && Transacts(t, call, reply, after) && NeverLies(t, mirror)
    ensures Consistent(after) && NeverLies(after, mirror)
    ensures Mirrored(call, reply).Some? ==> Mirrored(call, reply).value in after.runs
  {
    StepKeepsConsistent(t, call, reply, after);
    StepNeverLies(t, call, reply, after, mirror);
    if Mirrored(call, reply).Some? {
      MirroredExists(t, call, reply, after);
    }
  }
}
