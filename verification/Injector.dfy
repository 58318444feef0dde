/** The disturbance injector: disturbances/injector.py. */
module Injector {
  import opened Wrappers
  import opened SafetyGate

  datatype Phase = Execution | Observation | Verification | Abort

  datatype Mode =
    | LifecycleEvent(kind: string)
    | ToolCallSequence(tool: string, occurrence: int)
    | TimeOffset(seconds: real)

  datatype Spec = Spec(id: string, phase: Phase, mode: Mode, ask: Request)

  /** `tool` is empty and `elapsed` absent when the event carries none. */
  datatype Event = Event(runId: string, levelId: string, phase: Phase, kind: string, tool: string, elapsed: Option<real>)

  const TOOL_CALL := "tool_call"
  const TIMER := "timer"

  /** How executing a disturbance would go. */
  datatype Outcome = NoAdapter | Raises | Runs(cleanupRequired: bool)

  datatype Active = Active(spec: Spec, cleanupRequired: bool)

  datatype RecordStatus = Rejected | Triggered | Failed | Completed | Cleaned | CleanupFailed

  datatype Record = Record(id: string, status: RecordStatus)

  datatype Config = Config(runId: string, levelId: string, specs: seq<Spec>, policy: Policy, allowedTypes: set<string>,
                           behave: string -> Outcome, cleans: string -> bool)

  datatype State = State(triggered: set<string>, occurrences: map<string, nat>, active: seq<Active>, records: seq<Record>)

  const FRESH := State({}, map[], [], [])

  // ---------------------------------------------------------------- the state functions

  predicate Mine(c: Config, e: Event) { e.runId == c.runId && e.levelId == c.levelId }

  predicate IsCall(e: Event, tool: string) { e.kind == TOOL_CALL && e.tool == tool != "" }

  function OccurrencesOf(occurrences: map<string, nat>, tool: string): nat {
    if tool in occurrences then occurrences[tool] else 0
  }

  function Counted(occurrences: map<string, nat>, e: Event): map<string, nat> {
    if IsCall(e, e.tool) then occurrences[e.tool := OccurrencesOf(occurrences, e.tool) + 1] else occurrences
  }

  predicate Matches(spec: Spec, occurrences: map<string, nat>, e: Event) {
    && e.phase == spec.phase
    && match spec.mode
       case LifecycleEvent(kind) => e.kind == kind
       case ToolCallSequence(tool, occurrence) =>
         e.kind == TOOL_CALL && e.tool == tool && OccurrencesOf(occurrences, tool) == occurrence
       case TimeOffset(seconds) => e.kind == TIMER && e.elapsed.Some? && e.elapsed.value >= seconds
  }

  predicate Weighs(a: Active) { a.cleanupRequired && Mutating(a.spec.ask.backend) }

  function Weight(active: seq<Active>): nat {
    if active == [] then 0
    else Weight(active[..|active| - 1]) + if Weighs(active[|active| - 1]) then 1 else 0
  }

  ghost predicate Authorized(c: Config, active: seq<Active>, spec: Spec) {
    Allowed(c.policy, c.allowedTypes, spec.ask.(active := Weight(active)))
  }

  function Noted(s: State, id: string, status: RecordStatus): State {
    s.(records := s.records + [Record(id, status)])
  }

  ghost function Executed(c: Config, s: State, spec: Spec): State {
    if !Authorized(c, s.active, spec) then Noted(s, spec.id, Rejected)
    else
      var started := Noted(s, spec.id, Triggered);
      match c.behave(spec.id)
      case Runs(cleanupRequired) =>
        Noted(started.(active := started.active + [Active(spec, cleanupRequired)]), spec.id, Completed)
      case _ => Noted(started, spec.id, Failed)
  }

  predicate Due(s: State, spec: Spec, e: Event) {
    spec.id !in s.triggered && Matches(spec, s.occurrences, e)
  }

  ghost function Fired(c: Config, s: State, spec: Spec, e: Event): State {
    if Due(s, spec, e) then Executed(c, s.(triggered := s.triggered + {spec.id}), spec) else s
  }

  ghost function Swept(c: Config, s: State, e: Event, n: nat): State
    requires n <= |c.specs|
  {
    if n == 0 then s else Fired(c, Swept(c, s, e, n - 1), c.specs[n - 1], e)
  }

  ghost function Processed(c: Config, s: State, e: Event): State {
    if Mine(c, e) then Swept(c, s.(occurrences := Counted(s.occurrences, e)), e, |c.specs|) else s
  }

  function CleanupRecord(cleans: string -> bool, a: Active): Record {
    Record(a.spec.id, if cleans(a.spec.id) then Cleaned else CleanupFailed)
  }

  /** The pending cleanups' records, last started first. */
  function CleanupRecords(cleans: string -> bool, active: seq<Active>): seq<Record> {
    if active == [] then []
    else
      var last := active[|active| - 1];
      (if last.cleanupRequired then [CleanupRecord(cleans, last)] else []) + CleanupRecords(cleans, active[..|active| - 1])
  }

  function CleanedUp(c: Config, s: State): State {
    s.(active := [], records := s.records + CleanupRecords(c.cleans, s.active))
  }

  // ---------------------------------------------------------------- the injector

  class DisturbanceInjector {
    const config: Config
    const gate: ControllerDisturbanceSafetyGate
    var triggered: set<string>
    var occurrences: map<string, nat>
    var active: seq<Active>
    var records: seq<Record>

    ghost function Snapshot(): State reads this { State(triggered, occurrences, active, records) }

    ghost predicate Valid() { gate.policy == config.policy && gate.allowedTypes == config.allowedTypes }

    constructor (config: Config, gate: ControllerDisturbanceSafetyGate)
      requires gate.policy == config.policy && gate.allowedTypes == config.allowedTypes
      ensures Valid() && this.config == config && Snapshot() == FRESH
    {
      this.config := config;
      this.gate := gate;
      triggered, occurrences, active, records := {}, map[], [], [];
    }

    method Note(id: string, status: RecordStatus)
      modifies this`records
      ensures records == old(records) + [Record(id, status)]
    {
      records := records + [Record(id, status)];
    }

    /** The sum over the active disturbances. */
    method CountActive() returns (n: nat)
      ensures n == Weight(active)
    {
      n := 0;
      for i := 0 to |active|
        invariant n == Weight(active[..i])
      {
        assert active[..i + 1][..i] == active[..i];
        if Weighs(active[i]) {
          n := n + 1;
        }
      }
      assert active[..|active|] == active;
    }

    method Execute(spec: Spec)
      requires Valid()
      modifies this
      ensures Snapshot() == Executed(config, old(Snapshot()), spec)
    {
      var busy := CountActive();
      var allowed, reasons := gate.Authorize(spec.ask.(active := busy));
      if !allowed {
        Note(spec.id, Rejected);
        return;
      }
      Note(spec.id, Triggered);
      var outcome := config.behave(spec.id);
      if !outcome.Runs? {
        Note(spec.id, Failed);
        return;
      }
      active := active + [Active(spec, outcome.cleanupRequired)];
      Note(spec.id, Completed);
    }

    /** `process_event`: refused for another run's event, else one pass over the specs. */
    method ProcessEvent(e: Event) returns (accepted: bool)
      requires Valid()
      modifies this
      ensures Snapshot() == Processed(config, old(Snapshot()), e)
      ensures accepted <==> Mine(config, e)
    {
      if e.runId != config.runId || e.levelId != config.levelId { return false; }
      if e.kind == TOOL_CALL && e.tool != "" {
        occurrences := occurrences[e.tool := OccurrencesOf(occurrences, e.tool) + 1];
      }
      ghost var counted := Snapshot();
      for n := 0 to |config.specs|
        invariant Snapshot() == Swept(config, counted, e, n)
      {
        var spec := config.specs[n];
        if spec.id !in triggered && Matches(spec, occurrences, e) {
          triggered := triggered + {spec.id};
          Execute(spec);
        }
      }
      accepted := true;
    }

    /** `cleanup_all`: a cleanup that raises is recorded and the rest still run. */
    method CleanupAll()
      modifies this
      ensures Snapshot() == CleanedUp(config, old(Snapshot()))
    {
      var i := |active|;
      assert active[..i] == active;
      while i > 0
        invariant 0 <= i <= |active| && active == old(active) && triggered == old(triggered) && occurrences == old(occurrences)
        invariant records + CleanupRecords(config.cleans, active[..i]) == old(records) + CleanupRecords(config.cleans, active)
      {
        i := i - 1;
        assert active[..i + 1][..i] == active[..i];
        if active[i].cleanupRequired {
          var id := active[i].spec.id;
          var cleaned := config.cleans(id);
          Note(id, if cleaned then Cleaned else CleanupFailed);
        }
      }
      active := [];
    }
  }

  // ---------------------------------------------------------------- accounting

  /** What a run of the injector is made of. */
  datatype Call = OnEvent(event: Event) | CleanUp

  ghost function Take(c: Config, s: State, call: Call): State {
    match call
    case OnEvent(e) => Processed(c, s, e)
    case CleanUp => CleanedUp(c, s)
  }

  ghost function TakeAll(c: Config, calls: seq<Call>): State {
    if calls == [] then FRESH else Take(c, TakeAll(c, calls[..|calls| - 1]), calls[|calls| - 1])
  }

  predicate IsFiring(r: Record) { r.status == Triggered || r.status == Rejected }

  predicate IsDebt(c: Config, r: Record) { r.status == Completed && c.behave(r.id) == Runs(true) }

  predicate IsCleanup(r: Record) { r.status == Cleaned || r.status == CleanupFailed }

  function One(b: bool): nat { if b then 1 else 0 }

  /** How often one disturbance was fired, came to owe a cleanup, was cleaned up, and still waits. */
  function Firings(records: seq<Record>, id: string): nat {
    if records == [] then 0
    else var r := records[|records| - 1]; Firings(records[..|records| - 1], id) + One(IsFiring(r) && r.id == id)
  }

  function Debts(c: Config, records: seq<Record>, id: string): nat {
    if records == [] then 0
    else var r := records[|records| - 1]; Debts(c, records[..|records| - 1], id) + One(IsDebt(c, r) && r.id == id)
  }

  function Cleanups(records: seq<Record>, id: string): nat {
    if records == [] then 0
    else var r := records[|records| - 1]; Cleanups(records[..|records| - 1], id) + One(IsCleanup(r) && r.id == id)
  }

  function Pending(active: seq<Active>, id: string): nat {
    if active == [] then 0
    else var a := active[|active| - 1]; Pending(active[..|active| - 1], id) + One(a.cleanupRequired && a.spec.id == id)
  }

  /** The books of one disturbance. */
  ghost predicate Balanced(c: Config, s: State, id: string) {
    && Firings(s.records, id) == One(id in s.triggered)
    && Debts(c, s.records, id) <= Firings(s.records, id)
    && Cleanups(s.records, id) + Pending(s.active, id) == Debts(c, s.records, id)
  }

  lemma RecordAccounts(c: Config, records: seq<Record>, r: Record, id: string)
    ensures Firings(records + [r], id) == Firings(records, id) + One(IsFiring(r) && r.id == id)
    ensures Debts(c, records + [r], id) == Debts(c, records, id) + One(IsDebt(c, r) && r.id == id)
    ensures Cleanups(records + [r], id) == Cleanups(records, id) + One(IsCleanup(r) && r.id == id)
  {
    assert (records + [r])[..|records|] == records;
  }

  lemma ActivatedAccounts(active: seq<Active>, a: Active, id: string)
    ensures Pending(active + [a], id) == Pending(active, id) + One(a.cleanupRequired && a.spec.id == id)
    ensures Weight(active + [a]) == Weight(active) + One(Weighs(a))
  {
    assert (active + [a])[..|active|] == active;
  }

  lemma {:induction false} CleanupAccounts(c: Config, records: seq<Record>, active: seq<Active>, id: string)
    ensures var all := records + CleanupRecords(c.cleans, active);
            && Firings(all, id) == Firings(records, id)
            && Debts(c, all, id) == Debts(c, records, id)
            && Cleanups(all, id) == Cleanups(records, id) + Pending(active, id)
    decreases |active|
  {
    if active == [] {
      assert records + [] == records;
    } else {
      var rest, last := active[..|active| - 1], active[|active| - 1];
      var next := if last.cleanupRequired then records + [CleanupRecord(c.cleans, last)] else records;
      if last.cleanupRequired {
        RecordAccounts(c, records, CleanupRecord(c.cleans, last), id);
      }
      CleanupAccounts(c, next, rest, id);
      LastCleanedFirst(c.cleans, records, active);
    }
  }

  lemma LastCleanedFirst(cleans: string -> bool, records: seq<Record>, active: seq<Active>)
    requires active != []
    ensures var rest, last := active[..|active| - 1], active[|active| - 1];
            records + CleanupRecords(cleans, active)
            == (if last.cleanupRequired then records + [CleanupRecord(cleans, last)] else records) + CleanupRecords(cleans, rest)
  {
  }

  /** The disturbance runs and will have to be cleaned up. */
  ghost predicate Indebts(c: Config, s: State, spec: Spec) {
    Authorized(c, s.active, spec) && c.behave(spec.id) == Runs(true)
  }

  lemma TwoRecordsAccount(c: Config, records: seq<Record>, id': string, last: RecordStatus, id: string)
    requires last == Completed || last == Failed
    ensures var all := records + [Record(id', Triggered)] + [Record(id', last)];
            && Firings(all, id) == Firings(records, id) + One(id' == id)
            && Debts(c, all, id) == Debts(c, records, id) + One(last == Completed && c.behave(id') == Runs(true) && id' == id)
            && Cleanups(all, id) == Cleanups(records, id)
  {
    RecordAccounts(c, records, Record(id', Triggered), id);
    RecordAccounts(c, records + [Record(id', Triggered)], Record(id', last), id);
  }

  lemma ExecutionAccounts(c: Config, s: State, spec: Spec, id: string)
    ensures var t := Executed(c, s, spec);
            && t.triggered == s.triggered
            && Firings(t.records, id) == Firings(s.records, id) + One(spec.id == id)
            && Debts(c, t.records, id) == Debts(c, s.records, id) + One(Indebts(c, s, spec) && spec.id == id)
            && Cleanups(t.records, id) == Cleanups(s.records, id)
            && Pending(t.active, id) == Pending(s.active, id) + One(Indebts(c, s, spec) && spec.id == id)
  {
    if !Authorized(c, s.active, spec) {
      RecordAccounts(c, s.records, Record(spec.id, Rejected), id);
    } else if c.behave(spec.id).Runs? {
      TwoRecordsAccount(c, s.records, spec.id, Completed, id);
      ActivatedAccounts(s.active, Active(spec, c.behave(spec.id).cleanupRequired), id);
    } else {
      TwoRecordsAccount(c, s.records, spec.id, Failed, id);
    }
  }

  lemma FiringIsAccounted(c: Config, s: State, spec: Spec, e: Event, id: string)
    requires Balanced(c, s, id)
    ensures Balanced(c, Fired(c, s, spec, e), id)
  {
    if Due(s, spec, e) {
      ExecutionAccounts(c, s.(triggered := s.triggered + {spec.id}), spec, id);
    }
  }

  lemma FiringIsLight(c: Config, s: State, spec: Spec, e: Event)
    requires Weight(s.active) <= 1
    ensures Weight(Fired(c, s, spec, e).active) <= 1
  {
    ActivatedAccounts(s.active, Active(spec, true), "");
    ActivatedAccounts(s.active, Active(spec, false), "");
    if Authorized(c, s.active, spec) && Mutating(spec.ask.backend) {
      MutationNeedsIdleTarget(c.policy, c.allowedTypes, spec.ask.(active := Weight(s.active)));
    }
  }

  lemma {:induction false} SweepIsAccounted(c: Config, s: State, e: Event, n: nat, id: string)
    requires Balanced(c, s, id) && Weight(s.active) <= 1 && n <= |c.specs|
    ensures Balanced(c, Swept(c, s, e, n), id) && Weight(Swept(c, s, e, n).active) <= 1
  {
    if n > 0 {
      SweepIsAccounted(c, s, e, n - 1, id);
      FiringIsAccounted(c, Swept(c, s, e, n - 1), c.specs[n - 1], e, id);
      FiringIsLight(c, Swept(c, s, e, n - 1), c.specs[n - 1], e);
    }
  }

  lemma {:induction false} RunIsAccounted(c: Config, calls: seq<Call>, id: string)
    ensures Balanced(c, TakeAll(c, calls), id) && Weight(TakeAll(c, calls).active) <= 1
  {
    if calls != [] {
      RunIsAccounted(c, calls[..|calls| - 1], id);
      var s := TakeAll(c, calls[..|calls| - 1]);
      match calls[|calls| - 1] {
        case OnEvent(e) =>
          if Mine(c, e) {
            SweepIsAccounted(c, s.(occurrences := Counted(s.occurrences, e)), e, |c.specs|, id);
          }
        case CleanUp => CleanupAccounts(c, s.records, s.active, id);
      }
    }
  }

  /** Over every run, whatever the adapters and the policy: each disturbance fires at most once; one
      that completed and needs cleaning is either still pending or has had its one cleanup; and at
      most one mutating disturbance is awaiting cleanup. */
  lemma InjectorAccounts(c: Config, calls: seq<Call>, id: string)
    ensures var s := TakeAll(c, calls);
            && Firings(s.records, id) == (if id in s.triggered then 1 else 0)
            && Cleanups(s.records, id) + Pending(s.active, id) == Debts(c, s.records, id) <= 1
            && Weight(s.active) <= 1
  {
    RunIsAccounted(c, calls, id);
  }

  /** After `cleanup_all` nothing is pending: every debt of the whole run has had its one cleanup,
      even when some of them failed. */
  lemma CleanupSettlesEverything(c: Config, calls: seq<Call>, id: string)
    ensures var s := TakeAll(c, calls + [CleanUp]);
            s.active == [] && Cleanups(s.records, id) == Debts(c, s.records, id)
  {
    assert (calls + [CleanUp])[..|calls|] == calls;
    RunIsAccounted(c, calls + [CleanUp], id);
    assert TakeAll(c, calls + [CleanUp]) == CleanedUp(c, TakeAll(c, calls));
  }

  /** The cleanups run in the reverse of the order in which the disturbances completed. */
  function PendingIds(active: seq<Active>): seq<string> {
    if active == [] then []
    else PendingIds(active[..|active| - 1]) + if active[|active| - 1].cleanupRequired then [active[|active| - 1].spec.id] else []
  }

  ghost predicate Reversed(cleans: string -> bool, records: seq<Record>, ids: seq<string>) {
    && |records| == |ids|
    && forall k :: 0 <= k < |ids| ==> records[k].id == ids[|ids| - 1 - k] && (records[k].status == Cleaned <==> cleans(records[k].id))
  }

  lemma {:induction false} CleanupsRunInReverse(cleans: string -> bool, active: seq<Active>)
    ensures Reversed(cleans, CleanupRecords(cleans, active), PendingIds(active))
  {
    if active != [] {
      var rest, last := active[..|active| - 1], active[|active| - 1];
      CleanupsRunInReverse(cleans, rest);
      if last.cleanupRequired {
        OneMoreReversed(cleans, CleanupRecords(cleans, rest), PendingIds(rest), CleanupRecord(cleans, last));
      }
    }
  }

  lemma OneMoreReversed(cleans: string -> bool, records: seq<Record>, ids: seq<string>, r: Record)
    requires Reversed(cleans, records, ids) && (r.status == Cleaned <==> cleans(r.id))
    ensures Reversed(cleans, [r] + records, ids + [r.id])
  {
    forall k | 0 < k <= |ids|
      ensures ([r] + records)[k] == records[k - 1] && (ids + [r.id])[|ids| - k] == ids[|ids| - k]
    {
    }
  }

  // ---------------------------------------------------------------- when a trigger fires

  /** How often a tool was called in this run and level. */
  function Calls(c: Config, events: seq<Event>, tool: string): nat {
    if events == [] then 0
    else
      var last := events[|events| - 1];
      Calls(c, events[..|events| - 1], tool) + if Mine(c, last) && IsCall(last, tool) then 1 else 0
  }

  function Events(events: seq<Event>): (calls: seq<Call>)
    ensures |calls| == |events| && forall k :: 0 <= k < |events| ==> calls[k] == OnEvent(events[k])
  {
    seq(|events|, k requires 0 <= k < |events| => OnEvent(events[k]))
  }

  ghost function After(c: Config, events: seq<Event>): State { TakeAll(c, Events(events)) }

  lemma AfterOneMore(c: Config, events: seq<Event>)
    requires events != []
    ensures After(c, events) == Processed(c, After(c, events[..|events| - 1]), events[|events| - 1])
  {
    assert Events(events)[..|events| - 1] == Events(events[..|events| - 1]);
  }

  ghost predicate DistinctIds(c: Config) {
    forall i, j :: 0 <= i < j < |c.specs| ==> c.specs[i].id != c.specs[j].id
  }

  /** A sweep triggers exactly the specs that match. */
  lemma {:induction false} SweepTriggers(c: Config, s: State, e: Event, n: nat, i: nat)
    requires n <= |c.specs| && i < |c.specs| && DistinctIds(c)
    ensures var t := Swept(c, s, e, n);
            && t.occurrences == s.occurrences
            && (c.specs[i].id in t.triggered <==> c.specs[i].id in s.triggered || (i < n && Matches(c.specs[i], s.occurrences, e)))
  {
    if n > 0 {
      SweepTriggers(c, s, e, n - 1, i);
    }
  }

  lemma {:induction false} OccurrencesAreCalls(c: Config, events: seq<Event>, tool: string)
    requires DistinctIds(c)
    ensures OccurrencesOf(After(c, events).occurrences, tool) == Calls(c, events, tool)
  {
    if events == [] {
      assert Events(events) == [];
    } else {
      var before, e := events[..|events| - 1], events[|events| - 1];
      OccurrencesAreCalls(c, before, tool);
      AfterOneMore(c, events);
      var s := After(c, before);
      SweepKeepsCounts(c, s.(occurrences := Counted(s.occurrences, e)), e, |c.specs|);
    }
  }

  lemma {:induction false} SweepKeepsCounts(c: Config, s: State, e: Event, n: nat)
    requires n <= |c.specs|
    ensures Swept(c, s, e, n).occurrences == s.occurrences
  {
    if n > 0 {
      SweepKeepsCounts(c, s, e, n - 1);
    }
  }

  /** The k-th event is this spec's moment: the nth call of its tool, in its phase. */
  ghost predicate Moment(c: Config, events: seq<Event>, spec: Spec, k: int)
    requires spec.mode.ToolCallSequence?
  {
    && 0 <= k < |events|
    && Mine(c, events[k]) && IsCall(events[k], spec.mode.tool) && events[k].phase == spec.phase
    && Calls(c, events[..k + 1], spec.mode.tool) == spec.mode.occurrence
  }

  /** A tool-sequence disturbance has fired exactly when its moment has come: the nth call of its
      tool happened, and happened in its phase. */
  lemma {:induction false} ToolSequenceFiresAtItsMoment(c: Config, events: seq<Event>, i: nat)
    requires DistinctIds(c) && i < |c.specs| && c.specs[i].mode.ToolCallSequence? && c.specs[i].mode.tool != ""
    ensures c.specs[i].id in After(c, events).triggered <==> exists k :: Moment(c, events, c.specs[i], k)
  {
    var spec := c.specs[i];
    if events == [] {
      assert Events(events) == [];
    } else {
      var n := |events| - 1;
      var before, e := events[..n], events[n];
      ToolSequenceFiresAtItsMoment(c, before, i);
      AfterOneMore(c, events);
      var s := After(c, before);
      var counted := s.(occurrences := Counted(s.occurrences, e));
      SweepTriggers(c, counted, e, |c.specs|, i);
      OccurrencesAreCalls(c, before, spec.mode.tool);
      assert events[..n + 1] == events;
      assert Moment(c, events, spec, n) <==> Mine(c, e) && Matches(spec, counted.occurrences, e);
      MomentsOfPrefix(c, events, spec);
    }
  }

  lemma MomentsOfPrefix(c: Config, events: seq<Event>, spec: Spec)
    requires events != [] && spec.mode.ToolCallSequence?
    ensures var n := |events| - 1;
            (exists k :: Moment(c, events, spec, k)) <==> (exists k :: Moment(c, events[..n], spec, k)) || Moment(c, events, spec, n)
  {
    var n := |events| - 1;
    forall k | 0 <= k < n
      ensures Moment(c, events, spec, k) <==> Moment(c, events[..n], spec, k)
    {
      assert events[..n][..k + 1] == events[..k + 1];
    }
  }
}
