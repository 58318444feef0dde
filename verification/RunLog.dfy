/**
 The append-only `run_events` table of controller/run_store.py: rows of all runs in
 insertion order, numbered per run by `MAX(sequence) + 1`.
 */
module RunLog {
  import opened Wrappers
  import opened RunContracts

  type RunId = string

  /** An event name: one of those the store itself writes, or any other. The table holds its text. */
  datatype EventType =
    | RUN_CREATED | PHASE_TRANSITIONED | ABORT_REQUESTED | CLEANUP_REQUESTED | RUN_TERMINATED
    | MUTATION_LEASE_ACQUIRED | MUTATION_LEASE_RELEASED | WORKER_CLAIMED
    | Other(name: string)

  /** `status` is the `desired_terminal_status` entry of the event's detail, when it has one. */
  datatype Event = Event(
    runId: RunId, sequence: nat, eventType: EventType,
    phase: RunPhase, terminal: Option<TerminalStatus>, status: Option<TerminalStatus>)

  function EventText(t: EventType): string {
    match t
    case RUN_CREATED => "RUN_CREATED"
    case PHASE_TRANSITIONED => "PHASE_TRANSITIONED"
    case ABORT_REQUESTED => "ABORT_REQUESTED"
    case CLEANUP_REQUESTED => "CLEANUP_REQUESTED"
    case RUN_TERMINATED => "RUN_TERMINATED"
    case MUTATION_LEASE_ACQUIRED => "MUTATION_LEASE_ACQUIRED"
    case MUTATION_LEASE_RELEASED => "MUTATION_LEASE_RELEASED"
    case WORKER_CLAIMED => "WORKER_CLAIMED"
    case Other(name) => name
  }

  /** The event type a text names. A text the store writes never names anything else. */
  function Named(text: string): EventType {
    if text == "RUN_CREATED" then RUN_CREATED
    else if text == "PHASE_TRANSITIONED" then PHASE_TRANSITIONED
    else if text == "ABORT_REQUESTED" then ABORT_REQUESTED
    else if text == "CLEANUP_REQUESTED" then CLEANUP_REQUESTED
    else if text == "RUN_TERMINATED" then RUN_TERMINATED
    else if text == "MUTATION_LEASE_ACQUIRED" then MUTATION_LEASE_ACQUIRED
    else if text == "MUTATION_LEASE_RELEASED" then MUTATION_LEASE_RELEASED
    else if text == "WORKER_CLAIMED" then WORKER_CLAIMED
    else Other(text)
  }

  /** Types of texts and texts of types are inverse, so the model loses nothing of the text. */
  lemma NamesAreTexts(text: string, t: EventType)
    ensures EventText(Named(text)) == text
    ensures Named(EventText(t)) == t <==> !(t.Other? && !Named(t.name).Other?)
  {
    assert "RUN_CREATED"[4] == 'C' && "RUN_TERMINATED"[4] == 'T';
    assert "MUTATION_LEASE_ACQUIRED"[15] == 'A' && "MUTATION_LEASE_RELEASED"[15] == 'R';
    assert |"PHASE_TRANSITIONED"| == 18 && |"ABORT_REQUESTED"| == 15 && |"CLEANUP_REQUESTED"| == 17;
    assert |"RUN_CREATED"| == 11 && |"RUN_TERMINATED"| == 14 && |"WORKER_CLAIMED"| == 14;
    assert "WORKER_CLAIMED"[0] == 'W' && "RUN_TERMINATED"[0] == 'R';
  }

  /** The event types whose rows change the meaning of a log. */
  predicate Significant(t: EventType) {
    t in {RUN_CREATED, PHASE_TRANSITIONED, ABORT_REQUESTED, CLEANUP_REQUESTED, RUN_TERMINATED}
  }

  const RESERVED: set<string> := {"RUN_CREATED", "PHASE_TRANSITIONED", "ABORT_REQUESTED", "CLEANUP_REQUESTED", "RUN_TERMINATED"}

  /** Exactly five texts name such a type. */
  lemma SignificantTexts(text: string)
    ensures Significant(Named(text)) <==> text in RESERVED
  {
  }

  function MaxSequence(events: seq<Event>, id: RunId): nat {
    if events == [] then 0
    else
      var last := events[|events| - 1];
      var before := MaxSequence(events[..|events| - 1], id);
      if last.runId == id && last.sequence > before then last.sequence else before
  }

  /** One run's events in table order, which is `ORDER BY sequence` once they are numbered. */
  function Log(events: seq<Event>, id: RunId): seq<Event> {
    if events == [] then []
    else
      var last := events[|events| - 1];
      Log(events[..|events| - 1], id) + (if last.runId == id then [last] else [])
  }

  lemma LogOfAppend(events: seq<Event>, e: Event, id: RunId)
    ensures Log(events + [e], id) == Log(events, id) + (if e.runId == id then [e] else [])
  {
    assert (events + [e])[..|events|] == events;
  }

  ghost predicate Numbered(log: seq<Event>) {
    forall i :: 0 <= i < |log| ==> log[i].sequence == i + 1
  }

  lemma {:induction false} MaxSequenceCounts(events: seq<Event>, id: RunId)
    requires Numbered(Log(events, id))
    ensures MaxSequence(events, id) == |Log(events, id)|
  {
    if events != [] {
      var log, front := Log(events, id), events[..|events| - 1];
      var before := Log(front, id);
      assert Numbered(before) by {
        assert forall i :: 0 <= i < |before| ==> before[i] == log[i];
      }
      MaxSequenceCounts(front, id);
      if events[|events| - 1].runId == id {
        assert log[|before|] == events[|events| - 1];
      }
    }
  }

  /** Consecutive phases of one run's log: unchanged, along an allowed edge, or to CLEANING_UP. */
  ghost predicate PhasesFollowEdges(log: seq<Event>) {
    && (log != [] ==> log[0].phase == Created)
    && forall i, j :: 0 <= i < j < |log| && j == i + 1 ==> FollowsEdge(log[i].phase, log[j].phase)
  }

  ghost predicate FollowsEdge(before: RunPhase, after: RunPhase) {
    after == before || after in AllowedNext(before) || after == CleaningUp
  }

  // ---------------------------------------------------------------- replay

  /** What a reader of the log alone can rebuild of the run row. */
  datatype View = View(
    phase: RunPhase, terminal: Option<TerminalStatus>, desired: Option<TerminalStatus>, revision: nat)

  function ViewOf(row: Row): View {
    View(row.phase, row.terminal, row.desired, row.revision)
  }

  function Fold(v: View, e: Event): View {
    match e.eventType
    case RUN_CREATED => View(e.phase, None, None, 0)
    case PHASE_TRANSITIONED => v.(phase := e.phase, revision := v.revision + 1)
    case ABORT_REQUESTED => v.(phase := e.phase, desired := e.status, revision := v.revision + 1)
    case CLEANUP_REQUESTED => v.(phase := e.phase, desired := e.status, revision := v.revision + 1)
    case RUN_TERMINATED => v.(terminal := e.terminal, revision := v.revision + 1)
    case _ => v
  }

  const NOTHING := View(Created, None, None, 0)

  function Replay(log: seq<Event>): View {
    if log == [] then NOTHING else Fold(Replay(log[..|log| - 1]), log[|log| - 1])
  }

  lemma ReplayOfAppend(log: seq<Event>, e: Event)
    ensures Replay(log + [e]) == Fold(Replay(log), e)
  {
    assert (log + [e])[..|log|] == log;
  }
}
