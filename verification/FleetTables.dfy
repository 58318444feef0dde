/** The fleet's tables and the steps that change them: fleet_service/store.py and the row updates of
    fleet_service/scheduler.py. */
module FleetTables {
  import opened Wrappers
  import opened Iteration

  datatype ItemState = Queued | Assigned | Running | Done | Failed | Invalid

  datatype BatchState = Scheduled | InProgress | Stopped | Completed

  datatype Owner = Platform | Agent | Operator | Nobody

  datatype Failure = Failure(owner: Owner, stopRequested: bool, upstreamDeferrals: nat)

  /** `pin` is the namespace the item resolves to, empty for none. */
  datatype Row = Row(pin: string, state: ItemState, slotId: Option<string>, runId: Option<string>,
                     attempts: nat, platformRetries: nat, failure: Option<Failure>)

  datatype Request = Request(maxConcurrency: Option<nat>, platformRetryLimit: nat)

  /** `items` lists the batch's item ids in the order in which the items query returns them. */
  datatype Batch = Batch(state: BatchState, request: Request, items: seq<string>)

  /** A row of the batches query, which does not select the request. */
  datatype BatchRow = BatchRow(id: string, state: BatchState, request: Option<Request>)

  datatype Key = Key(batch: string, item: string)

  datatype Fleet = Fleet(batches: map<string, Batch>, items: map<Key, Row>)

  predicate Busy(row: Row) { row.state == Assigned || row.state == Running }

  predicate Terminal(row: Row) { row.state == Done || row.state == Failed || row.state == Invalid }

  predicate BusyOn(items: map<Key, Row>, slotId: string) {
    exists k :: k in items && Busy(items[k]) && items[k].slotId == Some(slotId)
  }

  function BusyKeys(items: map<Key, Row>): set<Key> { set k | k in items && Busy(items[k]) }

  /** The slots of the Assigned and Running rows. */
  function BusySlotIds(items: map<Key, Row>): set<string> {
    set k | k in items && Busy(items[k]) && items[k].slotId.Some? :: items[k].slotId.value
  }

  function RunningCount(items: map<Key, Row>): nat { |BusyKeys(items)| }

  function LimitOf(f: Fleet, batch: string): nat {
    if batch in f.batches then f.batches[batch].request.platformRetryLimit else 2
  }

  // ---------------------------------------------------------------- who is to blame

  datatype CodeKind = AgentCode | PlatformCode | OtherCode

  /** What a Controller reported: nothing in it, or a code and whether its words name a platform fault. */
  datatype Report = Empty | Report(code: CodeKind, platformWords: bool)

  const RETRYABLE_HTTP: set<int> := {408, 425, 429, 500, 502, 503, 504}

  function ClassifyFailure(report: Option<Report>, httpStatus: int, reasons: seq<CodeKind>, neverRan: bool): Owner {
    if neverRan then Platform
    else if AgentCode in reasons then Agent
    else if httpStatus in RETRYABLE_HTTP || (httpStatus == 0 && report.None?) then Platform
    else if report.None? || report.value.Empty? then Agent
    else if report.value.code == AgentCode then Agent
    else if report.value.code == PlatformCode || report.value.platformWords then Platform
    else Agent
  }

  /** What a Controller says when asked about a run; `settled` is a platform status that is empty,
      COMPLETED or SUCCEEDED, `unfinished` a task status of terminal failure. */
  datatype RunAnswer =
    | Unreadable(retryable: bool)
    | Going
    | Ended(settled: bool, neverRan: bool, unfinished: bool, report: Option<Report>, reasons: seq<CodeKind>)

  /** What a Controller says when asked to start one. */
  datatype SubmitAnswer =
    | Created(runId: Option<string>)
    | Refused(status: int, retryable: bool, warmingWords: bool, upstreamWords: bool)

  const UPSTREAM_DEFERRAL_LIMIT: nat := 30

  predicate SlotNotReadyYet(a: SubmitAnswer) {
    a.Refused? && (a.status == 503 || a.warmingWords)
  }

  predicate UpstreamTransient(a: SubmitAnswer) {
    a.Refused? && a.status in {422, 429, 503} && a.upstreamWords
  }

  // ---------------------------------------------------------------- what becomes of a row

  function FinishedFailed(row: Row, limit: nat, owner: Owner, deferrals: nat): Row {
    if owner == Platform && row.platformRetries < limit then
      row.(state := Queued, slotId := None, runId := None, platformRetries := row.platformRetries + 1,
           failure := Some(Failure(owner, false, deferrals)))
    else
      row.(state := Failed, failure := Some(Failure(owner, false, deferrals)))
  }

  predicate StopRequested(row: Row) { row.failure.Some? && row.failure.value.stopRequested }

  function Polled(row: Row, limit: nat, slotKnown: bool, a: RunAnswer): Row {
    if row.runId.None? || !slotKnown then row
    else match a
      case Unreadable(retryable) => if retryable then row else FinishedFailed(row, limit, Platform, 0)
      case Going => row.(state := Running)
      case Ended(settled, neverRan, unfinished, report, reasons) =>
        if StopRequested(row) then row.(state := Invalid, failure := Some(Failure(Operator, false, 0)))
        else if !settled then FinishedFailed(row, limit, ClassifyFailure(report, 0, reasons, neverRan), 0)
        else if unfinished then FinishedFailed(row, limit, ClassifyFailure(report, 0, reasons, false), 0)
        else row.(state := Done, failure := if report.Some? then Some(Failure(Nobody, false, 0)) else None)
  }

  function Deferrals(row: Row): nat {
    if row.failure.Some? then row.failure.value.upstreamDeferrals else 0
  }

  function Submitted(row: Row, limit: nat, a: SubmitAnswer): Row {
    if a.Created? then
      row.(state := Running, runId := a.runId, attempts := row.attempts + 1, failure := None)
    else if SlotNotReadyYet(a) then
      row.(state := Queued, slotId := None, failure := Some(Failure(Nobody, false, 0)))
    else if UpstreamTransient(a) then
      if Deferrals(row) + 1 < UPSTREAM_DEFERRAL_LIMIT then
        row.(state := Queued, slotId := None, failure := Some(Failure(Platform, false, Deferrals(row) + 1)))
      else FinishedFailed(row, limit, Platform, Deferrals(row) + 1)
    else if a.retryable then FinishedFailed(row, limit, Platform, 0)
    else row.(state := Invalid, failure := Some(Failure(Agent, false, 0)))
  }

  /** An operator's stop: queued items are dropped, a started run is marked if its Controller could be told. */
  function StoppedRow(row: Row, told: bool): Row {
    if row.state == Queued then row.(state := Invalid, failure := Some(Failure(Platform, false, 0)))
    else if Busy(row) && row.runId.Some? && told then row.(failure := Some(Failure(Operator, true, 0)))
    else row
  }

  function Fresh(pin: string): Row { Row(pin, Queued, None, None, 0, 0, None) }

  function Seeded(batch: string, pins: map<string, string>): (rows: map<Key, Row>)
    ensures forall k :: k in rows <==> k.batch == batch && k.item in pins
    ensures forall k :: k in rows ==> rows[k] == Fresh(pins[k.item])
  {
    var keys := set id | id in pins :: Key(batch, id);
    assert forall k: Key :: k.batch == batch && k.item in pins ==> k == Key(batch, k.item);
    map k | k in keys :: Fresh(pins[k.item])
  }

  // ---------------------------------------------------------------- atomic steps

  datatype Step =
    | Create(batch: string, request: Request, pins: map<string, string>, order: seq<string>)
    | Claim(key: Key, slotId: string)
    | Submit(key: Key, submitted: SubmitAnswer)
    | Poll(key: Key, slotKnown: bool, answer: RunAnswer)
    | Stop(key: Key, told: bool)
    | MarkStopped(batch: string)
    | Refresh(batch: string, stopRequested: bool)

  predicate Claimable(f: Fleet, key: Key, slotId: string) {
    key in f.items && f.items[key].state == Queued && !BusyOn(f.items, slotId)
  }

  function WithRow(f: Fleet, key: Key, row: Row): Fleet { f.(items := f.items[key := row]) }

  function Take(f: Fleet, step: Step): Fleet {
    match step
    case Create(batch, request, pins, order) =>
      if batch in f.batches then f
      else Fleet(f.batches[batch := Batch(Scheduled, request, order)],
                 f.items + Seeded(batch, pins))
    case Claim(key, slotId) =>
      if Claimable(f, key, slotId) then WithRow(f, key, f.items[key].(state := Assigned, slotId := Some(slotId))) else f
    case Submit(key, a) =>
      if key in f.items && f.items[key].state == Assigned && f.items[key].runId.None?
      then WithRow(f, key, Submitted(f.items[key], LimitOf(f, key.batch), a)) else f
    case Poll(key, slotKnown, a) =>
      if key in f.items && Busy(f.items[key])
      then WithRow(f, key, Polled(f.items[key], LimitOf(f, key.batch), slotKnown, a)) else f
    case Stop(key, told) =>
      if key in f.items then WithRow(f, key, StoppedRow(f.items[key], told)) else f
    case MarkStopped(batch) => WithState(f, batch, Stopped)
    case Refresh(batch, stopRequested) => Refreshed(f, batch, stopRequested)
  }

  function Refreshed(f: Fleet, batch: string, stopRequested: bool): Fleet {
    if KeysOf(f, batch) == {} then f else WithState(f, batch, BatchStateNow(f, batch, stopRequested))
  }

  function KeysOf(f: Fleet, batch: string): set<Key> { set k | k in f.items && k.batch == batch }

  predicate AllTerminal(f: Fleet, batch: string) {
    forall k :: k in f.items && k.batch == batch ==> Terminal(f.items[k])
  }

  function BatchStateNow(f: Fleet, batch: string, stopRequested: bool): BatchState {
    if AllTerminal(f, batch) then Completed else if stopRequested then Stopped else InProgress
  }

  function WithState(f: Fleet, batch: string, state: BatchState): Fleet {
    if batch in f.batches then f.(batches := f.batches[batch := f.batches[batch].(state := state)]) else f
  }

  function TakeAll(f: Fleet, steps: seq<Step>): Fleet {
    Run(Take, f, steps)
  }

  const EMPTY := Fleet(map[], map[])

  function ItemKeys(f: Fleet, batch: string): seq<Key> {
    if batch !in f.batches then []
    else
      var ids := f.batches[batch].items;
      seq(|ids|, k requires 0 <= k < |ids| => Key(batch, ids[k]))
  }

  lemma RefreshSteps(f: Fleet, batch: string, stopRequested: bool)
    ensures Take(f, Refresh(batch, stopRequested)) == Refreshed(f, batch, stopRequested)
  {
  }

  /** The steps of one row, spelled out. */
  lemma RowSteps(f: Fleet, key: Key, slotId: string, submitted: SubmitAnswer, slotKnown: bool, answer: RunAnswer)
    requires key in f.items
    ensures Claimable(f, key, slotId) ==>
              Take(f, Claim(key, slotId)) == WithRow(f, key, f.items[key].(state := Assigned, slotId := Some(slotId)))
    ensures f.items[key].state == Assigned && f.items[key].runId.None? ==>
              Take(f, Submit(key, submitted)) == WithRow(f, key, Submitted(f.items[key], LimitOf(f, key.batch), submitted))
    ensures Busy(f.items[key]) ==>
              Take(f, Poll(key, slotKnown, answer)) == WithRow(f, key, Polled(f.items[key], LimitOf(f, key.batch), slotKnown, answer))
  {
  }

  // ---------------------------------------------------------------- the store

  class FleetStore {
    var batches: map<string, Batch>
    var items: map<Key, Row>

    ghost function Snapshot(): Fleet reads this { Fleet(batches, items) }

    constructor ()
      ensures Snapshot() == EMPTY
    {
      batches, items := map[], map[];
    }

    /** One transaction, refused as a whole for a known batch id. */
    method CreateBatch(batch: string, request: Request, pins: map<string, string>, order: seq<string>) returns (created: bool)
      modifies this
      ensures created <==> batch !in old(batches)
      ensures Snapshot() == Take(old(Snapshot()), Create(batch, request, pins, order))
    {
      if batch in batches { return false; }
      batches := batches[batch := Batch(Scheduled, request, order)];
      items := items + Seeded(batch, pins);
      created := true;
    }

    /** `claim_slot_for_item`: the count and the guarded update are one transaction. */
    method ClaimSlotForItem(key: Key, slotId: string) returns (claimed: bool)
      modifies this`items
      ensures claimed <==> Claimable(old(Snapshot()), key, slotId)
      ensures Snapshot() == Take(old(Snapshot()), Claim(key, slotId))
    {
      if BusyOn(items, slotId) { return false; }
      if key !in items || items[key].state != Queued { return false; }
      items := items[key := items[key].(state := Assigned, slotId := Some(slotId))];
      claimed := true;
    }

    method UpdateItem(key: Key, row: Row)
      requires key in items
      modifies this`items
      ensures items == old(items)[key := row]
    {
      items := items[key := row];
    }

    /** `batches`, in whatever order creation times put them. */
    method Batches() returns (rows: seq<BatchRow>)
      ensures forall row :: row in rows ==> row.id in batches && row.state == batches[row.id].state && row.request.None?
      ensures forall id :: id in batches ==> exists row :: row in rows && row.id == id
    {
      rows := [];
      var left := batches.Keys;
      while left != {}
        invariant left <= batches.Keys
        invariant forall row :: row in rows ==> row.id in batches && row.state == batches[row.id].state && row.request.None?
        invariant forall id :: id in batches && id !in left ==> exists row :: row in rows && row.id == id
        decreases left
      {
        var id :| id in left;
        var row := BatchRow(id, batches[id].state, None);
        assert forall r :: r in rows ==> r in rows + [row];
        assert row in rows + [row];
        rows, left := rows + [row], left - {id};
      }
    }

    /** `items`, as keys, in the query's order. */
    method Items(batch: string) returns (keys: seq<Key>)
      ensures keys == ItemKeys(Snapshot(), batch)
    {
      keys := ItemKeys(Fleet(batches, items), batch);
    }

    method SetBatchState(batch: string, state: BatchState)
      modifies this`batches
      ensures batches == if batch in old(batches) then old(batches)[batch := old(batches)[batch].(state := state)] else old(batches)
    {
      if batch in batches {
        batches := batches[batch := batches[batch].(state := state)];
      }
    }
  }

  // ---------------------------------------------------------------- invariants

  /** Retries within the limit; no attempt of a queued or assigned item is unpaid for, and any other
      item has at most one; a busy item has a slot and a waiting one has none; only Running items have
      a run. */
  ghost predicate RowSound(row: Row, limit: nat) {
    && row.platformRetries <= limit
    && row.attempts <= row.platformRetries + (if row.state == Queued || row.state == Assigned then 0 else 1)
    && (Busy(row) ==> row.slotId.Some?)
    && (row.state == Queued ==> row.slotId.None?)
    && (row.state == Queued || row.state == Assigned ==> row.runId.None?)
  }

  ghost predicate RowsSound(f: Fleet) {
    forall k :: k in f.items ==> k.batch in f.batches && RowSound(f.items[k], LimitOf(f, k.batch))
  }

  /** No slot runs two items. */
  ghost predicate SlotsExclusive(f: Fleet) {
    forall j, k :: j in f.items && k in f.items && j != k && Busy(f.items[j]) && Busy(f.items[k]) ==>
      f.items[j].slotId != f.items[k].slotId
  }

  lemma PolledIsSound(row: Row, limit: nat, slotKnown: bool, a: RunAnswer)
    requires RowSound(row, limit) && Busy(row)
    ensures RowSound(Polled(row, limit, slotKnown, a), limit)
    ensures Busy(Polled(row, limit, slotKnown, a)) ==> Polled(row, limit, slotKnown, a).slotId == row.slotId
  {
  }

  lemma SubmittedIsSound(row: Row, limit: nat, a: SubmitAnswer)
    requires RowSound(row, limit) && row.state == Assigned
    ensures RowSound(Submitted(row, limit, a), limit)
    ensures Busy(Submitted(row, limit, a)) ==> Submitted(row, limit, a).slotId == row.slotId
  {
  }

  /** Replacing one row by a sound one that keeps its slot if it is busy. */
  lemma UpdateKeeps(f: Fleet, key: Key, row: Row)
    requires RowsSound(f) && SlotsExclusive(f) && key in f.items
    requires RowSound(row, LimitOf(f, key.batch))
    requires Busy(row) ==> row.slotId.Some? && ((Busy(f.items[key]) && row.slotId == f.items[key].slotId) || !BusyOn(f.items, row.slotId.value))
    ensures RowsSound(WithRow(f, key, row)) && SlotsExclusive(WithRow(f, key, row))
  {
  }

  lemma CreateKeeps(f: Fleet, batch: string, request: Request, pins: map<string, string>, order: seq<string>)
    requires RowsSound(f) && SlotsExclusive(f)
    ensures var f' := Take(f, Create(batch, request, pins, order)); RowsSound(f') && SlotsExclusive(f')
  {
    if batch !in f.batches {
      var f' := Take(f, Create(batch, request, pins, order));
      forall k | k in f'.items
        ensures k.batch in f'.batches && RowSound(f'.items[k], LimitOf(f', k.batch))
        ensures Busy(f'.items[k]) ==> k in f.items && f'.items[k] == f.items[k]
      {
        if k.batch == batch {
          assert k !in f.items;
        }
      }
    }
  }

  lemma StepKeeps(f: Fleet, step: Step)
    requires RowsSound(f) && SlotsExclusive(f)
    ensures RowsSound(Take(f, step)) && SlotsExclusive(Take(f, step))
  {
    match step
    case Create(batch, request, pins, order) => CreateKeeps(f, batch, request, pins, order);
    case Claim(key, slotId) =>
      if Claimable(f, key, slotId) {
        UpdateKeeps(f, key, f.items[key].(state := Assigned, slotId := Some(slotId)));
      }
    case Submit(key, a) =>
      if key in f.items && f.items[key].state == Assigned && f.items[key].runId.None? {
        SubmittedIsSound(f.items[key], LimitOf(f, key.batch), a);
        UpdateKeeps(f, key, Submitted(f.items[key], LimitOf(f, key.batch), a));
      }
    case Poll(key, slotKnown, a) =>
      if key in f.items && Busy(f.items[key]) {
        PolledIsSound(f.items[key], LimitOf(f, key.batch), slotKnown, a);
        UpdateKeeps(f, key, Polled(f.items[key], LimitOf(f, key.batch), slotKnown, a));
      }
    case Stop(key, told) =>
      if key in f.items {
        UpdateKeeps(f, key, StoppedRow(f.items[key], told));
      }
    case MarkStopped(batch) => StateKeeps(f, batch, Stopped);
    case Refresh(batch, stopRequested) => StateKeeps(f, batch, BatchStateNow(f, batch, stopRequested));
  }

  lemma StateKeeps(f: Fleet, batch: string, state: BatchState)
    requires RowsSound(f) && SlotsExclusive(f)
    ensures RowsSound(WithState(f, batch, state)) && SlotsExclusive(WithState(f, batch, state))
  {
    assert forall b :: LimitOf(WithState(f, batch, state), b) == LimitOf(f, b);
  }

  lemma {:induction false} RunKeeps(f: Fleet, steps: seq<Step>)
    requires RowsSound(f) && SlotsExclusive(f)
    ensures RowsSound(TakeAll(f, steps)) && SlotsExclusive(TakeAll(f, steps))
  {
    if steps != [] {
      RunKeeps(f, steps[..|steps| - 1]);
      StepKeeps(TakeAll(f, steps[..|steps| - 1]), steps[|steps| - 1]);
    }
  }

  /** On every run of the fleet, across all batches: no slot has two Assigned or Running items. */
  lemma SlotExclusivity(steps: seq<Step>, j: Key, k: Key)
    ensures var items := TakeAll(EMPTY, steps).items;
            j in items && k in items && j != k && Busy(items[j]) && Busy(items[k]) ==>
              items[j].slotId.Some? && items[k].slotId.Some? && items[j].slotId != items[k].slotId
  {
    RunKeeps(EMPTY, steps);
  }

  predicate WithinBudget(row: Row, limit: nat) {
    && row.platformRetries <= limit
    && row.attempts <= row.platformRetries + 1
    && (row.state == Queued ==> row.attempts <= row.platformRetries)
  }

  /** On every run: platform retries stay within the batch's limit, attempts within the retries plus
      one, and a queued item has no unpaid attempt. */
  lemma BoundedReruns(steps: seq<Step>, k: Key)
    ensures var f := TakeAll(EMPTY, steps);
            k in f.items ==> WithinBudget(f.items[k], LimitOf(f, k.batch))
  {
    RunKeeps(EMPTY, steps);
  }

  /** No step of this kind changes such a row of key k. */
  predicate Leaves(step: Step, k: Key, row: Row) {
    match step
    case Claim(key, _) => key == k ==> row.state != Queued
    case Submit(key, _) => key == k ==> row.state != Assigned || row.runId.Some?
    case Poll(key, _, _) => key == k ==> !Busy(row) || row.runId.None?
    case Stop(key, _) => key == k ==> Terminal(row) || (Busy(row) && row.runId.None?)
    case _ => true
  }

  lemma LeftAlone(f: Fleet, step: Step, k: Key)
    requires k in f.items && k.batch in f.batches && Leaves(step, k, f.items[k])
    ensures k in Take(f, step).items && Take(f, step).items[k] == f.items[k]
  {
  }

  lemma {:induction false} StaysAsItIs(f: Fleet, later: seq<Step>, k: Key)
    requires RowsSound(f) && SlotsExclusive(f) && k in f.items
    requires forall n :: 0 <= n < |later| ==> Leaves(later[n], k, f.items[k])
    ensures k in TakeAll(f, later).items && TakeAll(f, later).items[k] == f.items[k]
  {
    if later != [] {
      var init := later[..|later| - 1];
      StaysAsItIs(f, init, k);
      RunKeeps(f, init);
      LeftAlone(TakeAll(f, init), later[|later| - 1], k);
    }
  }

  /** Done, Failed and Invalid items never change again. */
  lemma TerminalItemsAreFrozen(steps: seq<Step>, later: seq<Step>, k: Key)
    ensures var (before, after) := (TakeAll(EMPTY, steps).items, TakeAll(EMPTY, steps + later).items);
            k in before && Terminal(before[k]) ==> k in after && after[k] == before[k]
  {
    RunKeeps(EMPTY, steps);
    RunsCompose(Take, EMPTY, steps, later);
    var f := TakeAll(EMPTY, steps);
    if k in f.items && Terminal(f.items[k]) {
      StaysAsItIs(f, later, k);
    }
  }

  /** A busy item without a run has nobody to ask: whatever else happens, polls and stops included, it
      stays as it is. Only the submission still owed to an Assigned item moves one, and a Running item,
      whose Controller gave no run id, nothing. */
  lemma BusyWithoutRunIsStuck(steps: seq<Step>, later: seq<Step>, k: Key)
    requires k in TakeAll(EMPTY, steps).items
    requires var row := TakeAll(EMPTY, steps).items[k];
             && Busy(row) && row.runId.None?
             && (row.state == Assigned ==> forall n :: 0 <= n < |later| ==> !(later[n].Submit? && later[n].key == k))
    ensures var after := TakeAll(EMPTY, steps + later).items; k in after && after[k] == TakeAll(EMPTY, steps).items[k]
  {
    RunKeeps(EMPTY, steps);
    RunsCompose(Take, EMPTY, steps, later);
    StaysAsItIs(TakeAll(EMPTY, steps), later, k);
  }

  /** Such a Running item exists: claimed, submitted, and accepted without a run id. */
  lemma RunningWithoutRunIsReached(f: Fleet, k: Key, slotId: string)
    requires Claimable(f, k, slotId) && f.items[k].runId.None?
    ensures var items := TakeAll(f, [Claim(k, slotId), Submit(k, Created(None))]).items;
            k in items && items[k].state == Running && items[k].runId.None?
  {
    var claim, submit := Claim(k, slotId), Submit(k, Created(None));
    RunsOneMore(Take, f, [claim], submit);
    RunsOneMore(Take, f, [], claim);
    assert [] + [claim] == [claim] && [claim] + [submit] == [claim, submit];
  }

  /** An item's run, asked about, is queued again exactly when a retry is left and the Controller could
      not be read for good, or the trial ended through the platform's fault with no stop asked for. It
      goes on only while the Controller says so or may be asked again, and is filed for good otherwise.
      A trial that ran and has an agent's reason code is never rerun once it ended. */
  lemma RerunExactlyWhen(row: Row, limit: nat, a: RunAnswer)
    requires Busy(row) && row.runId.Some?
    ensures var next := Polled(row, limit, true, a);
            && (next.state == Queued <==> row.platformRetries < limit && (a == Unreadable(false) || PlatformEnded(row, a)))
            && (Busy(next) <==> a == Unreadable(true) || a.Going?)
            && (next.state != Queued && !Busy(next) ==> Terminal(next))
            && (a.Ended? && AgentCode in a.reasons && !(a.neverRan && !a.settled) ==> Terminal(next))
  {
  }

  /** The trial is over, not by an operator, and the platform is to blame. */
  predicate PlatformEnded(row: Row, a: RunAnswer) {
    && a.Ended? && !StopRequested(row) && (!a.settled || a.unfinished)
    && ClassifyFailure(a.report, 0, a.reasons, a.neverRan && !a.settled) == Platform
  }

  /** A stop is not final: an item whose stop was asked for is queued again when its Controller cannot
      be read and a retry is left. From then on only another stop or a new claim moves it. */
  lemma StoppedItemMayBeRequeued(f: Fleet, k: Key, later: seq<Step>)
    requires RowsSound(f) && SlotsExclusive(f) && k in f.items && Busy(f.items[k]) && f.items[k].runId.Some?
    requires f.items[k].platformRetries < LimitOf(f, k.batch)
    requires forall n :: 0 <= n < |later| ==> !(later[n].Claim? && later[n].key == k) && !(later[n].Stop? && later[n].key == k)
    ensures var stopped := Take(f, Stop(k, true));
            var end := TakeAll(Take(stopped, Poll(k, true, Unreadable(false))), later);
            && StopRequested(stopped.items[k])
            && k in end.items && end.items[k].state == Queued && !AllTerminal(end, k.batch)
  {
    var stopped := Take(f, Stop(k, true));
    var requeued := Take(stopped, Poll(k, true, Unreadable(false)));
    StepKeeps(f, Stop(k, true));
    StepKeeps(stopped, Poll(k, true, Unreadable(false)));
    StaysAsItIs(requeued, later, k);
  }

  /** The running count is the number of occupied slots, so slots are the only real bound on it. */
  lemma InFlightIsOccupiedSlots(steps: seq<Step>)
    ensures var items := TakeAll(EMPTY, steps).items; RunningCount(items) == |BusySlotIds(items)|
  {
    RunKeeps(EMPTY, steps);
    var items := TakeAll(EMPTY, steps).items;
    CountSlots(items, BusyKeys(items));
    forall k | k in BusyKeys(items)
      ensures items[k].slotId.Some?
    {
      assert RowSound(items[k], LimitOf(TakeAll(EMPTY, steps), k.batch));
    }
    var slots := set k | k in BusyKeys(items) :: SlotOf(items, k);
    assert forall k :: k in items && Busy(items[k]) ==> k in BusyKeys(items) && Some(SlotOf(items, k)) == items[k].slotId;
    assert BusySlotIds(items) <= slots;
    forall x | x in slots
      ensures x in BusySlotIds(items)
    {
      var k :| k in BusyKeys(items) && SlotOf(items, k) == x;
      assert items[k].slotId.value == x;
    }
    assert slots == BusySlotIds(items);
  }

  function SlotOf(items: map<Key, Row>, k: Key): string {
    if k in items && items[k].slotId.Some? then items[k].slotId.value else ""
  }

  lemma {:induction false} CountSlots(items: map<Key, Row>, keys: set<Key>)
    requires forall j, k :: j in keys && k in keys && j != k ==> SlotOf(items, j) != SlotOf(items, k)
    ensures |set k | k in keys :: SlotOf(items, k)| == |keys|
  {
    if keys == {} {
      assert (set k | k in keys :: SlotOf(items, k)) == {};
    } else {
      var j :| j in keys;
      var rest := keys - {j};
      CountSlots(items, rest);
      assert (set k | k in keys :: SlotOf(items, k)) == (set k | k in rest :: SlotOf(items, k)) + {SlotOf(items, j)};
    }
  }
}
