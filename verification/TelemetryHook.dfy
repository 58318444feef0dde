/** The rule files between Controller and telemetry service: disturbances/file_telemetry_interceptor.py.
    A digest is taken to be injective, so the file itself stands for it. */
module TelemetryHook {
  import opened Wrappers
  import opened TelemetryRules

  /** A rule file: the id written in it, if it is well formed, the identity fields, and the rule. */
  datatype File = File(claimed: Option<RuleId>, identity: RuleId, rule: Rule)

  datatype SyncError = Malformed | IdentityIncomplete | IdentityMismatch | ChangedAfterRegistration | Unusable(error: RuleError)

  type Loaded = map<RuleId, File>

  // ---------------------------------------------------------------- the Controller's side

  datatype PublishError = Refused(error: RuleError) | Collision

  /** What the client is willing to publish. */
  predicate Published(file: File) {
    file.claimed == Some(file.identity) && Complete(file.identity) && ValidateRule(file.rule).Ok?
  }

  class FileTelemetryRuleClient {
    var directory: Loaded

    ghost predicate Valid() reads this {
      forall id :: id in directory ==> Published(directory[id]) && directory[id].identity == id
    }

    constructor ()
      ensures Valid() && directory == map[]
    {
      directory := map[];
    }

    /** Publishing again is harmless; publishing something else under the same identity is refused. */
    method RegisterRule(id: RuleId, rule: Rule) returns (fault: Option<PublishError>)
      requires Valid()
      modifies this
      ensures Valid()
      ensures var file := File(Some(id), id, rule);
              && (fault.None? <==> Published(file) && (id in old(directory) ==> old(directory)[id] == file))
              && directory == if fault.None? then old(directory)[id := file] else old(directory)
    {
      var validator := new TelemetryDisturbanceRuleEngine();
      var refused := validator.RegisterRule(id, rule);
      if refused.Some? { return Some(Refused(refused.value)); }
      var file := File(Some(id), id, rule);
      if id in directory {
        if directory[id] != file { return Some(Collision); }
        assert directory[id := file] == directory;
        return None;
      }
      directory := directory[id := file];
      fault := None;
    }

    method RemoveRule(id: RuleId) returns (removed: bool)
      requires Valid()
      modifies this
      ensures Valid() && directory == old(directory) - {id}
      ensures removed <==> id in old(directory)
    {
      removed := id in directory;
      if removed {
        directory := directory - {id};
      } else {
        assert directory - {id} == directory;
      }
    }
  }

  // ---------------------------------------------------------------- what the hook keeps

  ghost predicate Holds(rules: seq<Active>, id: RuleId) {
    exists a :: a in rules && a.id == id
  }

  /** The engine and the cache hold the same rules. */
  ghost predicate Agreed(rules: seq<Active>, loaded: Loaded) {
    && (forall a :: a in rules ==> a.id in loaded && ValidateRule(loaded[a.id].rule) == Ok(a.rule))
    && (forall id :: id in loaded ==> Holds(rules, id) && loaded[id].identity == id)
  }

  function EventsOf(events: seq<Event>, id: RuleId): seq<Event> {
    if events == [] then []
    else if events[|events| - 1].id == id then EventsOf(events[..|events| - 1], id) + [events[|events| - 1]]
    else EventsOf(events[..|events| - 1], id)
  }

  function LogOf(logs: map<RuleId, seq<Event>>, id: RuleId): seq<Event> {
    if id in logs then logs[id] else []
  }

  /** Each rule's log holds that rule's events among these, each once and in order. */
  ghost predicate Flushed(logs: map<RuleId, seq<Event>>, events: seq<Event>) {
    forall id :: LogOf(logs, id) == EventsOf(events, id)
  }

  /** A listing of the directory that a sync gets through. */
  ghost predicate Loadable(loaded: Loaded, files: seq<File>) {
    && (forall k :: 0 <= k < |files| ==> Usable(loaded, files[k]))
    && forall j, k :: 0 <= j < k < |files| && files[j].identity == files[k].identity ==> files[j] == files[k]
  }

  ghost predicate Usable(loaded: Loaded, file: File) {
    && file.claimed == Some(file.identity) && Complete(file.identity)
    && (if file.identity in loaded then loaded[file.identity] == file else ValidateRule(file.rule).Ok?)
  }

  function Ids(files: seq<File>): set<RuleId> { set file | file in files :: file.identity }

  // ---------------------------------------------------------------- the hook as a value

  datatype Hook = Hook(engine: Engine, loaded: Loaded, offset: nat, logs: map<RuleId, seq<Event>>)

  const NEW := Hook(EMPTY, map[], 0, map[])

  function FileFault(h: Hook, file: File): Option<SyncError> {
    if file.claimed.None? then Some(Malformed)
    else if !Complete(file.identity) then Some(IdentityIncomplete)
    else if file.claimed.value != file.identity then Some(IdentityMismatch)
    else if file.identity in h.loaded then (if h.loaded[file.identity] != file then Some(ChangedAfterRegistration) else None)
    else match RegisterFault(h.engine, file.identity, file.rule)
      case Some(error) => Some(Unusable(error))
      case None => None
  }

  function WithFile(h: Hook, file: File): Hook {
    if file.identity in h.loaded then h
    else h.(engine := Register(h.engine, file.identity, file.rule), loaded := h.loaded[file.identity := file])
  }

  /** The loop over the listing, which the first fault ends. */
  function LoadAll(h: Hook, files: seq<File>, n: nat): (Hook, Option<SyncError>)
    requires n <= |files|
  {
    if n == 0 then (h, None)
    else
      var (g, fault) := LoadAll(h, files, n - 1);
      if fault.Some? then (g, fault)
      else if FileFault(g, files[n - 1]).Some? then (g, FileFault(g, files[n - 1]))
      else (WithFile(g, files[n - 1]), None)
  }

  function Unloaded(h: Hook, id: RuleId): Hook {
    h.(engine := Remove(h.engine, id), loaded := h.loaded - {id})
  }

  function Pruned(h: Hook, order: seq<RuleId>): Hook {
    if order == [] then h else Unloaded(Pruned(h, order[..|order| - 1]), order[|order| - 1])
  }

  /** One sync; the order in which rules of vanished files are removed is left open. */
  ghost predicate Syncs(h: Hook, files: seq<File>, g: Hook, fault: Option<SyncError>) {
    var (loaded, loadFault) := LoadAll(h, files, |files|);
    && fault == loadFault
    && (fault.Some? ==> g == loaded)
    && (fault.None? ==> exists order :: Gone(order, loaded.loaded.Keys - Ids(files)) && g == Pruned(loaded, order))
  }

  ghost predicate Gone(order: seq<RuleId>, ids: set<RuleId>) {
    forall id :: id in order <==> id in ids
  }

  function Logged(logs: map<RuleId, seq<Event>>, events: seq<Event>): map<RuleId, seq<Event>> {
    if events == [] then logs
    else
      var before, event := Logged(logs, events[..|events| - 1]), events[|events| - 1];
      before[event.id := LogOf(before, event.id) + [event]]
  }

  function FlushedHook(h: Hook): Hook
    requires h.offset <= |h.engine.events|
  {
    h.(logs := Logged(h.logs, h.engine.events[h.offset..]), offset := |h.engine.events|)
  }

  // ---------------------------------------------------------------- the hook

  class FileBackedTelemetryDisturbanceHook {
    const engine: TelemetryDisturbanceRuleEngine
    var loaded: Loaded
    var eventOffset: nat
    var logs: map<RuleId, seq<Event>>

    ghost function Snapshot(): Hook reads this, engine { Hook(engine.Snapshot(), loaded, eventOffset, logs) }

    constructor ()
      ensures Snapshot() == NEW && Good(Snapshot()) && fresh(engine)
    {
      engine := new TelemetryDisturbanceRuleEngine();
      loaded, eventOffset, logs := map[], 0, map[];
      new;
      NewIsGood();
    }

    /** `_flush_events`. */
    method FlushEvents()
      requires eventOffset <= |engine.events|
      modifies this
      ensures Snapshot() == FlushedHook(old(Snapshot()))
    {
      ghost var start, before := eventOffset, logs;
      var n := eventOffset;
      while n < |engine.events|
        invariant start <= n <= |engine.events| && eventOffset == start && loaded == old(loaded)
        invariant logs == Logged(before, engine.events[start..n])
      {
        var event := engine.events[n];
        LoggedOneMore(before, engine.events, start, n);
        logs := logs[event.id := LogOf(logs, event.id) + [event]];
        n := n + 1;
      }
      assert engine.events[start..n] == engine.events[start..];
      eventOffset := n;
    }

    /** One file of the listing. */
    method LoadFile(file: File) returns (fault: Option<SyncError>)
      modifies this, engine
      ensures fault == FileFault(old(Snapshot()), file)
      ensures Snapshot() == if fault.Some? then old(Snapshot()) else WithFile(old(Snapshot()), file)
    {
      if file.claimed.None? { return Some(Malformed); }
      if !Complete(file.identity) { return Some(IdentityIncomplete); }
      if file.claimed.value != file.identity { return Some(IdentityMismatch); }
      if file.identity in loaded {
        return if loaded[file.identity] != file then Some(ChangedAfterRegistration) else None;
      }
      var refused := engine.RegisterRule(file.identity, file.rule);
      if refused.Some? { return Some(Unusable(refused.value)); }
      loaded := loaded[file.identity := file];
      fault := None;
    }

    /** `_sync_rules`. */
    method SyncRules(files: seq<File>) returns (fault: Option<SyncError>)
      modifies this, engine
      ensures Syncs(old(Snapshot()), files, Snapshot(), fault)
    {
      ghost var h := Snapshot();
      var present: set<RuleId> := {};
      for n := 0 to |files|
        invariant LoadAll(h, files, n) == (Snapshot(), None)
        invariant present == Ids(files[..n])
      {
        fault := LoadFile(files[n]);
        NextLoads(h, files, n, Snapshot(), fault);
        if fault.Some? {
          return;
        }
        present := present + {files[n].identity};
      }
      assert files[..|files|] == files;
      fault := None;
      Prune(present);
    }

    /** The loop over the rules whose files have gone. */
    method Prune(present: set<RuleId>)
      modifies this, engine
      ensures exists order :: Gone(order, old(loaded).Keys - present) && Snapshot() == Pruned(old(Snapshot()), order)
    {
      ghost var h := Snapshot();
      var gone := loaded.Keys - present;
      ghost var order: seq<RuleId> := [];
      while gone != {}
        invariant gone <= old(loaded).Keys - present
        invariant Gone(order, old(loaded).Keys - present - gone)
        invariant Snapshot() == Pruned(h, order)
        decreases gone
      {
        var id :| id in gone;
        var removed := engine.RemoveRule(id);
        loaded := loaded - {id};
        assert (order + [id])[..|order|] == order;
        order, gone := order + [id], gone - {id};
      }
    }

    /** `before_tool`: sync, the engine's verdict on the call, and in any case a flush. */
    method BeforeTool(files: seq<File>, tool: string) returns (fault: Option<SyncError>, failure: Option<(RuleId, Mode)>)
      requires Good(Snapshot())
      modifies this, engine
      ensures Good(Snapshot())
      ensures exists synced :: Serves(old(Snapshot()), files, Calling(tool), synced, Snapshot(), fault)
      ensures fault.Some? ==> failure.None?
    {
      failure := None;
      fault := SyncRules(files);
      ghost var synced := Snapshot();
      SyncAgreement(old(Snapshot()), files, synced, fault);
      if fault.None? {
        failure := Call(tool);
      } else {
        CallIsGood(synced, Calling(tool));
      }
      assert Serves(old(Snapshot()), files, Calling(tool), synced, Snapshot(), fault);
    }

    method Call(tool: string) returns (failure: Option<(RuleId, Mode)>)
      requires Good(Snapshot())
      modifies this, engine
      ensures Good(Snapshot())
      ensures var h := old(Snapshot());
              && h.offset <= |Take(h.engine, Calling(tool)).events|
              && Snapshot() == FlushedHook(h.(engine := Take(h.engine, Calling(tool))))
    {
      ghost var synced := Snapshot();
      failure := engine.BeforeCall(tool);
      CallIsGood(synced, Calling(tool));
      assert Snapshot() == synced.(engine := Take(synced.engine, Calling(tool)));
      FlushEvents();
    }

    /** `after_tool`: sync, every gap rule of the tool in turn, and in any case a flush. */
    method AfterTool<V>(files: seq<File>, tool: string, response: seq<Series<V>>) returns (fault: Option<SyncError>, result: seq<Series<V>>)
      requires Good(Snapshot())
      modifies this, engine
      ensures Good(Snapshot())
      ensures fault.None? ==> result == GappedBy(engine.rules, tool, response, |engine.rules|)
      ensures exists synced, gaps :: OnlyGaps(Responding(gaps)) && Serves(old(Snapshot()), files, Responding(gaps), synced, Snapshot(), fault)
    {
      result := response;
      fault := SyncRules(files);
      ghost var synced := Snapshot();
      ghost var gaps := GapEvents(synced.engine.rules, tool, response, |synced.engine.rules|);
      SyncAgreement(old(Snapshot()), files, synced, fault);
      if fault.None? {
        result := Respond(tool, response);
      } else {
        CallIsGood(synced, Responding(gaps));
      }
      assert Serves(old(Snapshot()), files, Responding(gaps), synced, Snapshot(), fault);
    }

    method Respond<V>(tool: string, response: seq<Series<V>>) returns (result: seq<Series<V>>)
      requires Good(Snapshot())
      modifies this, engine
      ensures Good(Snapshot()) && engine.rules == old(engine.rules)
      ensures result == GappedBy(engine.rules, tool, response, |engine.rules|)
      ensures var h := old(Snapshot());
              var op := Responding(GapEvents(h.engine.rules, tool, response, |h.engine.rules|));
              && h.offset <= |Take(h.engine, op).events|
              && Snapshot() == FlushedHook(h.(engine := Take(h.engine, op)))
    {
      ghost var synced := Snapshot();
      result := engine.AfterCall(tool, response);
      ghost var op := Responding(GapEvents(synced.engine.rules, tool, response, |synced.engine.rules|));
      CallIsGood(synced, op);
      assert Snapshot() == synced.(engine := Take(synced.engine, op));
      FlushEvents();
    }
  }

  lemma LoggedOneMore(logs: map<RuleId, seq<Event>>, events: seq<Event>, start: nat, n: nat)
    requires start <= n < |events|
    ensures var done := Logged(logs, events[start..n]);
            Logged(logs, events[start..n + 1]) == done[events[n].id := LogOf(done, events[n].id) + [events[n]]]
  {
    var some := events[start..n + 1];
    assert some[..|some| - 1] == events[start..n];
  }

  /** One turn of the loop over the listing. */
  lemma NextLoads(h: Hook, files: seq<File>, n: nat, g: Hook, fault: Option<SyncError>)
    requires n < |files| && LoadAll(h, files, n).1.None? && fault == FileFault(LoadAll(h, files, n).0, files[n])
    requires g == if fault.Some? then LoadAll(h, files, n).0 else WithFile(LoadAll(h, files, n).0, files[n])
    ensures LoadAll(h, files, n + 1) == (g, fault)
    ensures fault.Some? ==> LoadAll(h, files, |files|) == (g, fault)
    ensures Ids(files[..n + 1]) == Ids(files[..n]) + {files[n].identity}
  {
    assert files[..n + 1] == files[..n] + [files[n]];
    if fault.Some? {
      FaultEndsLoading(h, files, n + 1, |files|);
    }
  }

  lemma {:induction false} FaultEndsLoading(h: Hook, files: seq<File>, n: nat, m: nat)
    requires n <= m <= |files| && LoadAll(h, files, n).1.Some?
    ensures LoadAll(h, files, m) == LoadAll(h, files, n)
  {
    if n < m {
      FaultEndsLoading(h, files, n, m - 1);
    }
  }

  /** A call: its sync, and if that gets through the engine's step and a flush. */
  ghost predicate Serves(h: Hook, files: seq<File>, op: Op, synced: Hook, after: Hook, fault: Option<SyncError>) {
    && Syncs(h, files, synced, fault)
    && synced.offset <= |Take(synced.engine, op).events|
    && after == if fault.Some? then synced else FlushedHook(synced.(engine := Take(synced.engine, op)))
  }

  // ---------------------------------------------------------------- what every hook keeps

  ghost predicate Good(h: Hook) {
    && Agreed(h.engine.rules, h.loaded)
    && AllOnSchedule(h.engine)
    && h.offset <= |h.engine.events|
    && Flushed(h.logs, h.engine.events[..h.offset])
  }

  lemma HeldIsFound(rules: seq<Active>, id: RuleId)
    ensures IndexOf(rules, id) >= 0 <==> Holds(rules, id)
  {
    if IndexOf(rules, id) >= 0 {
      assert rules[IndexOf(rules, id)] in rules;
    }
  }

  lemma FileFaultMeans(h: Hook, file: File)
    requires Agreed(h.engine.rules, h.loaded)
    ensures FileFault(h, file).None? <==> Usable(h.loaded, file)
  {
    HeldIsFound(h.engine.rules, file.identity);
  }

  lemma RegisteredAgrees(rules: seq<Active>, loaded: Loaded, file: File)
    requires Agreed(rules, loaded) && DistinctRules(rules) && file.identity !in loaded && ValidateRule(file.rule).Ok?
    ensures var rules' := rules + [Active(file.identity, ValidateRule(file.rule).value, 0)];
            Agreed(rules', loaded[file.identity := file]) && DistinctRules(rules')
  {
    var added := Active(file.identity, ValidateRule(file.rule).value, 0);
    var rules' := rules + [added];
    assert added in rules';
    forall id | id in loaded
      ensures Holds(rules', id)
    {
      var a :| a in rules && a.id == id;
      assert a in rules';
    }
    assert forall k :: 0 <= k < |rules| ==> rules[k] in rules;
  }

  /** The events already flushed are still the first ones. */
  lemma LongerIsFlushed(h: Hook, engine: Engine)
    requires h.offset <= |h.engine.events| && Flushed(h.logs, h.engine.events[..h.offset])
    requires h.engine.events <= engine.events
    ensures h.offset <= |engine.events| && Flushed(h.logs, engine.events[..h.offset])
  {
    assert engine.events[..h.offset] == h.engine.events[..h.offset];
  }

  lemma WithFileIsGood(h: Hook, file: File)
    requires Good(h) && FileFault(h, file).None?
    ensures Good(WithFile(h, file))
  {
    if file.identity !in h.loaded {
      RegisteredAgrees(h.engine.rules, h.loaded, file);
      RegisterKeepsSchedule(h.engine, file.identity, file.rule);
      LongerIsFlushed(h, WithFile(h, file).engine);
    }
  }

  /** Removing takes one rule out and moves the later ones up. */
  lemma RemovedIsShifted(rules: seq<Active>, events: seq<Event>, id: RuleId)
    requires IndexOf(rules, id) >= 0
    ensures var at, after := IndexOf(rules, id), Remove(Engine(rules, events), id).rules;
            |after| == |rules| - 1 && forall k :: 0 <= k < |after| ==> after[k] == rules[if k < at then k else k + 1]
  {
  }

  lemma RemovedIsDistinct(e: Engine, id: RuleId)
    requires DistinctRules(e.rules)
    ensures DistinctRules(Remove(e, id).rules)
    ensures forall a :: a in Remove(e, id).rules ==> a in e.rules && a.id != id
  {
    if IndexOf(e.rules, id) >= 0 {
      RemovedIsShifted(e.rules, e.events, id);
      ShiftedIsDistinct(e.rules, Remove(e, id).rules, IndexOf(e.rules, id));
    }
  }

  lemma ShiftedIsDistinct(rules: seq<Active>, after: seq<Active>, at: nat)
    requires DistinctRules(rules) && at < |rules| && |after| == |rules| - 1
    requires forall k :: 0 <= k < |after| ==> after[k] == rules[if k < at then k else k + 1]
    ensures DistinctRules(after)
    ensures forall a :: a in after ==> a in rules && a.id != rules[at].id
  {
    forall a | a in after
      ensures a in rules && a.id != rules[at].id
    {
      var k :| 0 <= k < |after| && after[k] == a;
      assert rules[if k < at then k else k + 1] == a;
    }
  }

  lemma RemovedAgrees(e: Engine, loaded: Loaded, id: RuleId)
    requires Agreed(e.rules, loaded) && DistinctRules(e.rules)
    ensures Agreed(Remove(e, id).rules, loaded - {id})
  {
    RemovedIsDistinct(e, id);
    RemovalKeepsOthers(e, id);
    forall other | other in loaded - {id}
      ensures Holds(Remove(e, id).rules, other)
    {
      var a :| a in e.rules && a.id == other;
      assert a in Remove(e, id).rules;
    }
  }

  lemma UnloadedIsGood(h: Hook, id: RuleId)
    requires Good(h)
    ensures Good(Unloaded(h, id))
  {
    RemovedAgrees(h.engine, h.loaded, id);
    RemoveKeepsSchedule(h.engine, id);
    LongerIsFlushed(h, Remove(h.engine, id));
  }

  lemma CallAgrees(rules: seq<Active>, loaded: Loaded, tool: string)
    requires Agreed(rules, loaded) && DistinctRules(rules)
    ensures Agreed(CountedRules(rules, tool, |rules|), loaded) && DistinctRules(CountedRules(rules, tool, |rules|))
  {
    var counted := CountedRules(rules, tool, |rules|);
    forall a | a in counted
      ensures a.id in loaded && ValidateRule(loaded[a.id].rule) == Ok(a.rule)
    {
      var k :| 0 <= k < |counted| && counted[k] == a;
      assert rules[k] in rules && a == Counted(rules[k], tool);
    }
    forall id | id in loaded
      ensures Holds(counted, id)
    {
      CountedStillHolds(rules, tool, id);
    }
  }

  lemma CountedStillHolds(rules: seq<Active>, tool: string, id: RuleId)
    requires Holds(rules, id)
    ensures Holds(CountedRules(rules, tool, |rules|), id)
  {
    var counted := CountedRules(rules, tool, |rules|);
    var a :| a in rules && a.id == id;
    var k :| 0 <= k < |rules| && rules[k] == a;
    assert counted[k] in counted && counted[k].id == id;
  }

  lemma {:induction false} LogsFollow(logs: map<RuleId, seq<Event>>, before: seq<Event>, more: seq<Event>)
    requires Flushed(logs, before)
    ensures Flushed(Logged(logs, more), before + more)
  {
    if more == [] {
      assert before + more == before;
    } else {
      var init, event := more[..|more| - 1], more[|more| - 1];
      LogsFollow(logs, before, init);
      assert before + more == before + init + [event];
      OneMoreLogged(Logged(logs, init), before + init, event);
    }
  }

  lemma OneMoreLogged(logs: map<RuleId, seq<Event>>, events: seq<Event>, event: Event)
    requires Flushed(logs, events)
    ensures Flushed(logs[event.id := LogOf(logs, event.id) + [event]], events + [event])
  {
    var logs' := logs[event.id := LogOf(logs, event.id) + [event]];
    assert (events + [event])[..|events|] == events;
    forall id
      ensures LogOf(logs', id) == EventsOf(events + [event], id)
    {
      assert LogOf(logs, id) == EventsOf(events, id);
    }
  }

  /** After a call every event of the engine stands in its own rule's log, once and in order. */
  lemma CallIsGood(h: Hook, op: Op)
    requires Good(h) && (op.Calling? || op.Responding?) && OnlyGaps(op)
    ensures var called := h.(engine := Take(h.engine, op));
            && called.offset <= |called.engine.events|
            && Good(FlushedHook(called))
            && Flushed(FlushedHook(called).logs, called.engine.events)
  {
    var engine := Take(h.engine, op);
    TakeKeepsSchedule(h.engine, op);
    if op.Calling? {
      CallAgrees(h.engine.rules, h.loaded, op.tool);
    }
    LongerIsFlushed(h, engine);
    FlushingFlushes(h.(engine := engine));
  }

  lemma FlushingFlushes(h: Hook)
    requires h.offset <= |h.engine.events| && Flushed(h.logs, h.engine.events[..h.offset])
    ensures Flushed(FlushedHook(h).logs, h.engine.events)
    ensures Flushed(FlushedHook(h).logs, h.engine.events[..|h.engine.events|])
  {
    var events := h.engine.events;
    LogsFollow(h.logs, events[..h.offset], events[h.offset..]);
    assert events[..h.offset] + events[h.offset..] == events;
    assert events[..|events|] == events;
  }

  lemma {:induction false} OwnEventsTellMatches(events: seq<Event>, id: RuleId)
    ensures MatchedSlots(EventsOf(events, id), id) == MatchedSlots(events, id)
  {
    if events != [] {
      var init, last := events[..|events| - 1], events[|events| - 1];
      OwnEventsTellMatches(init, id);
      assert events == init + [last];
      MatchedAfter(init, last, id);
      if last.id == id {
        assert EventsOf(events, id) == EventsOf(init, id) + [last];
        MatchedAfter(EventsOf(init, id), last, id);
      } else {
        assert EventsOf(events, id) == EventsOf(init, id);
      }
    }
  }

  lemma NewIsGood()
    ensures Good(NEW)
  {
  }

  // ---------------------------------------------------------------- cache and directory

  /** The rules of these ids are still there, call counts and all. */
  ghost predicate StillThere(before: seq<Active>, after: seq<Active>, ids: set<RuleId>) {
    forall a :: a in before && a.id in ids ==> a in after
  }

  /** What is in the engine was there before, or is new and starts counting at 0. */
  ghost predicate NewStartAtZero(before: seq<Active>, loaded: Loaded, after: seq<Active>) {
    forall a :: a in after ==> a in before || (a.id !in loaded && a.calls == 0)
  }

  /** The cache after some files: what was there, and those. */
  ghost predicate LoadedWith(before: Loaded, files: seq<File>, now: Loaded) {
    && now.Keys == before.Keys + Ids(files)
    && (forall id :: id in before ==> now[id] == before[id])
    && forall file :: file in files ==> now[file.identity] == file
  }

  /** What loading the first n files has come to. */
  ghost predicate LoadedSoFar(h: Hook, files: seq<File>, n: nat, g: Hook)
    requires n <= |files|
  {
    && LoadedWith(h.loaded, files[..n], g.loaded)
    && (forall a :: a in h.engine.rules ==> a in g.engine.rules)
    && NewStartAtZero(h.engine.rules, h.loaded, g.engine.rules)
  }

  lemma {:induction false} LoadingIsGood(h: Hook, files: seq<File>, n: nat)
    requires Good(h) && n <= |files|
    ensures Good(LoadAll(h, files, n).0)
  {
    if n > 0 {
      LoadingIsGood(h, files, n - 1);
      var (g, fault) := LoadAll(h, files, n - 1);
      if fault.None? && FileFault(g, files[n - 1]).None? {
        WithFileIsGood(g, files[n - 1]);
      }
    }
  }

  /** Where the loop over the listing stands after n files. */
  ghost predicate Progress(h: Hook, files: seq<File>, n: nat, g: Hook, fault: Option<SyncError>)
    requires n <= |files|
  {
    && (fault.None? <==> Loadable(h.loaded, files[..n]))
    && (fault.None? ==> LoadedSoFar(h, files, n, g))
  }

  lemma FaultIsFinal(h: Hook, files: seq<File>, n: nat, g: Hook, fault: Option<SyncError>)
    requires n < |files| && Progress(h, files, n, g, fault) && fault.Some?
    ensures Progress(h, files, n + 1, g, fault)
  {
    assert files[..n + 1][..n] == files[..n];
    if Loadable(h.loaded, files[..n + 1]) {
      PrefixLoads(h.loaded, files[..n + 1], n);
    }
  }

  lemma {:induction false} LoadingGetsThrough(h: Hook, files: seq<File>, n: nat)
    requires Good(h) && n <= |files|
    ensures Progress(h, files, n, LoadAll(h, files, n).0, LoadAll(h, files, n).1)
  {
    if n == 0 {
      NothingLoaded(h, files);
    } else {
      LoadingGetsThrough(h, files, n - 1);
      LoadingIsGood(h, files, n - 1);
      NextProgress(h, files, n);
    }
  }

  lemma NothingLoaded(h: Hook, files: seq<File>)
    ensures Progress(h, files, 0, h, None)
  {
    assert files[..0] == [];
  }

  lemma NextProgress(h: Hook, files: seq<File>, n: nat)
    requires 0 < n <= |files| && Good(LoadAll(h, files, n - 1).0)
    requires Progress(h, files, n - 1, LoadAll(h, files, n - 1).0, LoadAll(h, files, n - 1).1)
    ensures Progress(h, files, n, LoadAll(h, files, n).0, LoadAll(h, files, n).1)
  {
    var (g, fault) := LoadAll(h, files, n - 1);
    if fault.Some? {
      FaultIsFinal(h, files, n - 1, g, fault);
    } else {
      NextGetsThrough(h, files, n - 1, g);
    }
  }

  lemma NextGetsThrough(h: Hook, files: seq<File>, n: nat, g: Hook)
    requires n < |files| && LoadedSoFar(h, files, n, g) && Agreed(g.engine.rules, g.loaded) && Loadable(h.loaded, files[..n])
    ensures FileFault(g, files[n]).None? <==> Loadable(h.loaded, files[..n + 1])
    ensures FileFault(g, files[n]).None? ==> LoadedSoFar(h, files, n + 1, WithFile(g, files[n]))
  {
    FileFaultMeans(g, files[n]);
    OneMoreLoads(h.loaded, files, n, g.loaded);
    if FileFault(g, files[n]).None? {
      OneMoreLoaded(h, files, n, g);
    }
  }

  lemma OneMoreLoaded(h: Hook, files: seq<File>, n: nat, g: Hook)
    requires n < |files| && LoadedSoFar(h, files, n, g) && FileFault(g, files[n]).None? && Usable(g.loaded, files[n])
    ensures LoadedSoFar(h, files, n + 1, WithFile(g, files[n]))
  {
    var file := files[n];
    assert files[..n + 1] == files[..n] + [file];
    NowLoadedWith(h.loaded, files[..n], file, g.loaded);
    if file.identity in g.loaded {
      assert g.loaded[file.identity := file] == g.loaded;
    } else {
      assert WithFile(g, file).engine.rules == g.engine.rules + [Active(file.identity, ValidateRule(file.rule).value, 0)];
    }
  }

  lemma NowLoadedWith(before: Loaded, some: seq<File>, file: File, now: Loaded)
    requires LoadedWith(before, some, now) && Usable(now, file)
    ensures LoadedWith(before, some + [file], now[file.identity := file])
  {
    assert Ids(some + [file]) == Ids(some) + {file.identity};
  }

  lemma OneMoreLoads(before: Loaded, files: seq<File>, n: nat, now: Loaded)
    requires n < |files| && LoadedWith(before, files[..n], now) && Loadable(before, files[..n])
    ensures Usable(now, files[n]) <==> Loadable(before, files[..n + 1])
  {
    var some, file := files[..n], files[n];
    assert files[..n + 1] == some + [file];
    if Loadable(before, some + [file]) {
      LastIsUsable(before, some, file, now);
    }
    if Usable(now, file) {
      UsableExtends(before, some, file, now);
    }
  }

  lemma PrefixLoads(before: Loaded, files: seq<File>, n: nat)
    requires n <= |files| && Loadable(before, files)
    ensures Loadable(before, files[..n])
  {
    var some := files[..n];
    assert forall k :: 0 <= k < n ==> some[k] == files[k];
  }

  lemma LastIsUsable(before: Loaded, some: seq<File>, file: File, now: Loaded)
    requires LoadedWith(before, some, now) && Loadable(before, some + [file])
    ensures Usable(now, file)
  {
    var all, n := some + [file], |some|;
    assert all[n] == file && Usable(before, all[n]);
    if file.identity in now && file.identity !in before {
      var other :| other in some && other.identity == file.identity;
      var k :| 0 <= k < n && some[k] == other;
      assert all[k] == other;
    }
  }

  lemma UsableExtends(before: Loaded, some: seq<File>, file: File, now: Loaded)
    requires LoadedWith(before, some, now) && Loadable(before, some) && Usable(now, file)
    ensures Loadable(before, some + [file])
  {
    var all, n := some + [file], |some|;
    assert forall k :: 0 <= k < n ==> all[k] == some[k] && some[k] in some;
    assert Usable(before, file) by {
      assert file.identity in before ==> now[file.identity] == before[file.identity];
      if file.identity in now && file.identity !in before {
        var other :| other in some && other.identity == file.identity;
        var k :| 0 <= k < n && some[k] == other;
        assert Usable(before, some[k]) && other == file;
      }
    }
    forall j, k | 0 <= j < k < |all| && all[j].identity == all[k].identity
      ensures all[j] == all[k]
    {
      if k == n {
        assert some[j] in some && now[some[j].identity] == some[j];
      }
    }
  }

  lemma {:induction false} PruningIsGood(h: Hook, order: seq<RuleId>)
    requires Good(h)
    ensures Good(Pruned(h, order))
  {
    if order != [] {
      PruningIsGood(h, order[..|order| - 1]);
      UnloadedIsGood(Pruned(h, order[..|order| - 1]), order[|order| - 1]);
    }
  }

  lemma {:induction false} PruningKeeps(h: Hook, order: seq<RuleId>, present: set<RuleId>)
    requires forall id :: id in order ==> id !in present
    ensures Pruned(h, order).loaded.Keys == h.loaded.Keys - (set id | id in order)
    ensures forall id :: id in Pruned(h, order).loaded ==> Pruned(h, order).loaded[id] == h.loaded[id]
    ensures StillThere(h.engine.rules, Pruned(h, order).engine.rules, present)
    ensures forall a :: a in Pruned(h, order).engine.rules ==> a in h.engine.rules
  {
    if order != [] {
      var init, id := order[..|order| - 1], order[|order| - 1];
      assert order == init + [id];
      assert id in order;
      assert forall x :: x in init ==> x in order;
      PruningKeeps(h, init, present);
      RemovalKeepsOthers(Pruned(h, init).engine, id);
    }
  }

  lemma RemovalKeepsOthers(e: Engine, id: RuleId)
    ensures forall a :: a in e.rules && a.id != id ==> a in Remove(e, id).rules
    ensures forall a :: a in Remove(e, id).rules ==> a in e.rules
  {
    var at := IndexOf(e.rules, id);
    if at >= 0 {
      assert e.rules == e.rules[..at] + [e.rules[at]] + e.rules[at + 1..];
    }
  }

  /** A sync gets through exactly the loadable listings, and then cache and engine hold exactly the
      files present: rules already there keep their call counts, new ones start at 0. */
  lemma SyncAgreement(h: Hook, files: seq<File>, g: Hook, fault: Option<SyncError>)
    requires Good(h) && Syncs(h, files, g, fault)
    ensures Good(g)
    ensures fault.None? <==> Loadable(h.loaded, files)
    ensures fault.None? ==> InStep(h, files, g)
  {
    LoadingGetsThrough(h, files, |files|);
    LoadingIsGood(h, files, |files|);
    assert files[..|files|] == files;
    if fault.None? {
      var loaded := LoadAll(h, files, |files|).0;
      var order :| Gone(order, loaded.loaded.Keys - Ids(files)) && g == Pruned(loaded, order);
      PruningIsGood(loaded, order);
      PruningIsInStep(h, files, LoadAll(h, files, |files|).0, g);
    }
  }

  lemma PruningIsInStep(h: Hook, files: seq<File>, loaded: Hook, g: Hook)
    requires LoadedSoFar(h, files, |files|, loaded)
    requires exists order :: Gone(order, loaded.loaded.Keys - Ids(files)) && g == Pruned(loaded, order)
    ensures InStep(h, files, g)
  {
    var order :| Gone(order, loaded.loaded.Keys - Ids(files)) && g == Pruned(loaded, order);
    PruningKeeps(loaded, order, Ids(files));
    assert files[..|files|] == files;
    assert (set id | id in order) == loaded.loaded.Keys - Ids(files);
    OnlyTheFiles(h.loaded, files, loaded.loaded, g.loaded);
    StillInStep(h, loaded.engine.rules, g.engine.rules, Ids(files));
  }

  lemma OnlyTheFiles(before: Loaded, files: seq<File>, loaded: Loaded, now: Loaded)
    requires LoadedWith(before, files, loaded) && now.Keys == loaded.Keys - (loaded.Keys - Ids(files))
    requires forall id :: id in now ==> now[id] == loaded[id]
    ensures now.Keys == Ids(files)
    ensures forall file :: file in files ==> file.identity in now && now[file.identity] == file
  {
    assert forall file :: file in files ==> file.identity in Ids(files);
  }

  lemma StillInStep(h: Hook, mid: seq<Active>, after: seq<Active>, ids: set<RuleId>)
    requires forall a :: a in h.engine.rules ==> a in mid
    requires NewStartAtZero(h.engine.rules, h.loaded, mid)
    requires StillThere(mid, after, ids) && forall a :: a in after ==> a in mid
    ensures StillThere(h.engine.rules, after, ids) && NewStartAtZero(h.engine.rules, h.loaded, after)
  {
  }

  /** Cache and engine agree with the directory. */
  ghost predicate InStep(h: Hook, files: seq<File>, g: Hook) {
    && g.loaded.Keys == Ids(files)
    && (forall file :: file in files ==> file.identity in g.loaded && g.loaded[file.identity] == file)
    && StillThere(h.engine.rules, g.engine.rules, Ids(files))
    && NewStartAtZero(h.engine.rules, h.loaded, g.engine.rules)
  }

  /** What that says of the engine: it holds a rule exactly when its file is present, with the file's
      content. */
  lemma EngineHoldsTheFiles(h: Hook, files: seq<File>, g: Hook, fault: Option<SyncError>, id: RuleId)
    requires Good(h) && Syncs(h, files, g, fault) && fault.None?
    ensures Holds(g.engine.rules, id) <==> exists file :: file in files && file.identity == id
    ensures forall file, a :: file in files && a in g.engine.rules && a.id == file.identity ==> ValidateRule(file.rule) == Ok(a.rule)
  {
    SyncAgreement(h, files, g, fault);
    assert id in g.loaded <==> id in Ids(files);
  }

  /** A directory that only the client writes to fails a sync exactly when a rule was replaced between
      two syncs: what it publishes is otherwise always loadable. */
  lemma PublishedFilesLoad(directory: Loaded, loaded: Loaded, files: seq<File>)
    requires forall id :: id in directory ==> Published(directory[id]) && directory[id].identity == id
    requires forall file :: file in files <==> file.identity in directory && directory[file.identity] == file
    ensures Loadable(loaded, files) <==> forall id :: id in directory && id in loaded ==> loaded[id] == directory[id]
  {
    if forall id :: id in directory && id in loaded ==> loaded[id] == directory[id] {
      forall k | 0 <= k < |files|
        ensures Usable(loaded, files[k])
      {
        assert files[k] in files;
      }
      forall j, k | 0 <= j < k < |files| && files[j].identity == files[k].identity
        ensures files[j] == files[k]
      {
        assert files[j] in files && files[k] in files;
      }
    } else {
      var id :| id in directory && id in loaded && loaded[id] != directory[id];
      assert directory[id] in files;
      var k :| 0 <= k < |files| && files[k] == directory[id];
      assert !Usable(loaded, files[k]);
    }
  }

  // ---------------------------------------------------------------- over any run of calls

  /** One call on the hook: what it was, where its sync left the hook, and where the call did. */
  datatype Turn = Turn(before: Hook, files: seq<File>, op: Op, synced: Hook, fault: Option<SyncError>, after: Hook)

  /** Any run of `before_tool` and `after_tool` calls on a new hook, with any listings. */
  ghost predicate IsRun(turns: seq<Turn>) {
    && (turns != [] ==> turns[0].before == NEW)
    && (forall i, j :: 0 <= i < j < |turns| && j == i + 1 ==> turns[j].before == turns[i].after)
    && forall i :: 0 <= i < |turns| ==> IsTurn(turns[i])
  }

  ghost predicate IsTurn(t: Turn) {
    && (t.op.Calling? || t.op.Responding?) && OnlyGaps(t.op)
    && Serves(t.before, t.files, t.op, t.synced, t.after, t.fault)
  }

  function HookAt(turns: seq<Turn>, n: nat): Hook
    requires n <= |turns|
  {
    if n == 0 then NEW else turns[n - 1].after
  }

  /** How many calls of the tool got through since the rule's file was last taken in. */
  function CallsSinceLoaded(turns: seq<Turn>, n: nat, id: RuleId, tool: string): nat
    requires n <= |turns|
  {
    if n == 0 || id !in turns[n - 1].after.loaded then 0
    else
      var t := turns[n - 1];
      (if id in t.before.loaded then CallsSinceLoaded(turns, n - 1, id, tool) else 0)
      + if t.fault.None? && t.op == Calling(tool) then 1 else 0
  }

  lemma {:induction false} LoadingStartsAtZero(h: Hook, files: seq<File>, n: nat)
    requires n <= |files|
    ensures var g := LoadAll(h, files, n).0;
            h.loaded.Keys <= g.loaded.Keys && NewStartAtZero(h.engine.rules, h.loaded, g.engine.rules)
  {
    if n > 0 {
      LoadingStartsAtZero(h, files, n - 1);
      var (g, fault) := LoadAll(h, files, n - 1);
      if fault.None? && FileFault(g, files[n - 1]).None? {
        NextStartsAtZero(h, g, files[n - 1]);
      }
    }
  }

  lemma NextStartsAtZero(h: Hook, g: Hook, file: File)
    requires h.loaded.Keys <= g.loaded.Keys && NewStartAtZero(h.engine.rules, h.loaded, g.engine.rules)
    requires FileFault(g, file).None?
    ensures h.loaded.Keys <= WithFile(g, file).loaded.Keys
    ensures NewStartAtZero(h.engine.rules, h.loaded, WithFile(g, file).engine.rules)
  {
    if file.identity !in g.loaded {
      var after := Register(g.engine, file.identity, file.rule);
      assert forall a :: a in after.rules ==> a in g.engine.rules || (a.id == file.identity && a.calls == 0);
    }
  }

  /** A sync, whether it gets through or not, keeps counts or starts at 0. */
  lemma SyncStartsAtZero(h: Hook, files: seq<File>, g: Hook, fault: Option<SyncError>)
    requires Good(h) && Syncs(h, files, g, fault)
    ensures NewStartAtZero(h.engine.rules, h.loaded, g.engine.rules)
  {
    LoadingStartsAtZero(h, files, |files|);
    SyncAgreement(h, files, g, fault);
  }

  /** The engine's counters are the run's own count of calls. */
  ghost predicate CountsTheRun(turns: seq<Turn>, n: nat)
    requires n <= |turns|
  {
    forall a :: a in HookAt(turns, n).engine.rules && a.rule.FailureSchedule? ==>
      a.calls == CallsSinceLoaded(turns, n, a.id, a.rule.tool)
  }

  lemma {:induction false} RunKeepsCount(turns: seq<Turn>, n: nat)
    requires IsRun(turns) && n <= |turns|
    ensures Good(HookAt(turns, n)) && CountsTheRun(turns, n)
  {
    if n == 0 {
      NewIsGood();
    } else {
      RunKeepsCount(turns, n - 1);
      TurnStartsWhereLastEnded(turns, n - 1);
      TurnIsGood(turns[n - 1]);
      forall a | a in HookAt(turns, n).engine.rules && a.rule.FailureSchedule?
        ensures a.calls == CallsSinceLoaded(turns, n, a.id, a.rule.tool)
      {
        TurnCounts(turns, n - 1, a);
      }
    }
  }

  lemma TurnStartsWhereLastEnded(turns: seq<Turn>, n: nat)
    requires IsRun(turns) && n < |turns|
    ensures turns[n].before == HookAt(turns, n)
  {
  }

  lemma TurnIsGood(t: Turn)
    requires IsTurn(t) && Good(t.before)
    ensures Good(t.synced) && Good(t.after)
    ensures NewStartAtZero(t.before.engine.rules, t.before.loaded, t.synced.engine.rules)
    ensures t.fault.None? ==> t.after.offset == |t.after.engine.events|
  {
    SyncAgreement(t.before, t.files, t.synced, t.fault);
    SyncStartsAtZero(t.before, t.files, t.synced, t.fault);
    if t.fault.None? {
      CallIsGood(t.synced, t.op);
    }
  }

  /** What a rule was before the engine took the step of the call. */
  lemma RuleBeforeStep(t: Turn, a: Active) returns (b: Active)
    requires IsTurn(t) && a in t.after.engine.rules
    ensures b in t.synced.engine.rules && b.id == a.id && b.rule == a.rule
    ensures a.rule.FailureSchedule? ==>
              a.calls == b.calls + if t.fault.None? && t.op == Calling(a.rule.tool) then 1 else 0
  {
    b := a;
    if t.fault.None? && t.op.Calling? {
      var rules := t.synced.engine.rules;
      var k :| 0 <= k < |rules| && CountedRules(rules, t.op.tool, |rules|)[k] == a;
      b := rules[k];
    }
  }

  lemma {:induction false} TurnCounts(turns: seq<Turn>, n: nat, a: Active)
    requires n < |turns| && IsTurn(turns[n]) && turns[n].before == HookAt(turns, n)
    requires Good(turns[n].before) && CountsTheRun(turns, n)
    requires a in turns[n].after.engine.rules && a.rule.FailureSchedule?
    ensures a.calls == CallsSinceLoaded(turns, n + 1, a.id, a.rule.tool)
  {
    var t := turns[n];
    TurnIsGood(t);
    var b := RuleBeforeStep(t, a);
    assert t.after.loaded == t.synced.loaded && b.id in t.synced.loaded;
    if b in t.before.engine.rules {
      assert b.id in t.before.loaded;
    }
  }

  /** End to end, over any run of calls with any listings: whenever a call has got through, the log file
      of each failure rule lists, for the rule as last taken in, exactly the scheduled numbers among the
      calls of its tool since then, each once and in order. */
  lemma LogsShowTheSchedule(turns: seq<Turn>, n: nat, a: Active)
    requires IsRun(turns) && 0 < n <= |turns| && turns[n - 1].fault.None?
    requires a in HookAt(turns, n).engine.rules && a.rule.FailureSchedule?
    ensures var calls := CallsSinceLoaded(turns, n, a.id, a.rule.tool);
            var listed := MatchedSlots(LogOf(HookAt(turns, n).logs, a.id), a.id);
            listed == UpTo(a.rule.slots, calls) && forall s :: s in listed <==> s in a.rule.slots && s <= calls
  {
    RunKeepsCount(turns, n);
    RunKeepsCount(turns, n - 1);
    TurnStartsWhereLastEnded(turns, n - 1);
    TurnIsGood(turns[n - 1]);
    LogShowsTheSchedule(HookAt(turns, n), a);
  }

  lemma LogShowsTheSchedule(h: Hook, a: Active)
    requires Good(h) && h.offset == |h.engine.events| && a in h.engine.rules && a.rule.FailureSchedule?
    ensures MatchedSlots(LogOf(h.logs, a.id), a.id) == UpTo(a.rule.slots, a.calls)
    ensures forall s :: s in UpTo(a.rule.slots, a.calls) <==> s in a.rule.slots && s <= a.calls
  {
    assert h.engine.events[..h.offset] == h.engine.events;
    OwnEventsTellMatches(h.engine.events, a.id);
    var k :| 0 <= k < |h.engine.rules| && h.engine.rules[k] == a;
    assert OnSchedule(h.engine.rules[k], h.engine.events);
    forall s
      ensures s in UpTo(a.rule.slots, a.calls) <==> s in a.rule.slots && s <= a.calls
    {
      UpToMeans(a.rule.slots, a.calls, s);
    }
  }

  /** Which rules those are: after a call that got through, a rule is taken in exactly when the listing
      of that call has its file. */
  lemma TakenInMeansListed(turns: seq<Turn>, n: nat, id: RuleId)
    requires IsRun(turns) && 0 < n <= |turns| && turns[n - 1].fault.None?
    ensures id in HookAt(turns, n).loaded <==> exists file :: file in turns[n - 1].files && file.identity == id
    ensures id in HookAt(turns, n).loaded <==> Holds(HookAt(turns, n).engine.rules, id)
  {
    RunKeepsCount(turns, n - 1);
    RunKeepsCount(turns, n);
    TurnStartsWhereLastEnded(turns, n - 1);
    var t := turns[n - 1];
    SyncAgreement(t.before, t.files, t.synced, t.fault);
    assert t.after.loaded == t.synced.loaded;
    assert id in Ids(t.files) <==> exists file :: file in t.files && file.identity == id;
  }
}
