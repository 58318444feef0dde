/** The dispatcher: `BatchDispatcher` of fleet_service/scheduler.py. */
module Dispatcher {
  import opened Wrappers
  import opened Iteration
  import opened FleetTables
  import Planner

  /** The Controllers' answers at each moment, and the seeded choice among candidate slots. */
  datatype Env = Env(submits: (nat, Key) -> SubmitAnswer, polls: (nat, Key) -> RunAnswer, choose: (Key, nat) -> nat)

  /** The dispatcher's view: the tables, the slots in index order, and how many Controllers were asked. */
  datatype World = World(fleet: Fleet, slots: seq<Planner.Slot>, now: nat)

  function Cap(row: BatchRow): nat {
    if row.request.Some? && row.request.value.maxConcurrency.Some? then row.request.value.maxConcurrency.value else 0
  }

  function Candidates(slots: seq<Planner.Slot>, busy: set<string>, pin: string): (candidates: seq<Planner.Slot>)
    ensures forall s :: s in candidates <==> s in slots && s.phase == Planner.Ready && s.id !in busy && (pin == "" || s.namespace == pin)
  {
    if slots == [] then []
    else
      var last := slots[|slots| - 1];
      Candidates(slots[..|slots| - 1], busy, pin)
      + if last.phase == Planner.Ready && last.id !in busy && (pin == "" || last.namespace == pin) then [last] else []
  }

  function Picked(env: Env, w: World, key: Key): (slot: Option<Planner.Slot>)
    requires key in w.fleet.items
    ensures slot.Some? ==> slot.value in w.slots && slot.value.id !in BusySlotIds(w.fleet.items)
  {
    var candidates := Candidates(w.slots, BusySlotIds(w.fleet.items), w.fleet.items[key].pin);
    if candidates == [] then None
    else
      var slot := candidates[env.choose(key, |candidates|) % |candidates|];
      assert slot in candidates;
      Some(slot)
  }

  /** Dispatching one queued item: pick, claim, submit. */
  function Attempted(env: Env, w: World, key: Key): World
    requires key in w.fleet.items
  {
    var slot := Picked(env, w, key);
    if slot.None? || !Claimable(w.fleet, key, slot.value.id) then w
    else
      var claimed := w.fleet.items[key].(state := Assigned, slotId := Some(slot.value.id));
      var row := Submitted(claimed, LimitOf(w.fleet, key.batch), env.submits(w.now, key));
      World(WithRow(WithRow(w.fleet, key, claimed), key, row), w.slots, w.now + 1)
  }

  datatype Sweep = Sweep(world: World, broke: bool)

  /** One turn of the loop over a batch's items, under a cap where 0 means none. */
  function Considered(env: Env, before: Sweep, key: Key, cap: nat): Sweep {
    if before.broke || key !in before.world.fleet.items || before.world.fleet.items[key].state != Queued then before
    else if cap > 0 && RunningCount(before.world.fleet.items) >= cap then Sweep(before.world, true)
    else Sweep(Attempted(env, before.world, key), false)
  }

  function Swept(env: Env, w: World, keys: seq<Key>, n: nat, cap: nat): Sweep
    requires n <= |keys|
  {
    if n == 0 then Sweep(w, false) else Considered(env, Swept(env, w, keys, n - 1, cap), keys[n - 1], cap)
  }

  /** The pass over one batch, and its refreshed state. */
  function Passed(env: Env, w: World, row: BatchRow): World {
    var keys := ItemKeys(w.fleet, row.id);
    var end := Swept(env, w, keys, |keys|, Cap(row)).world;
    end.(fleet := Refreshed(end.fleet, row.id, false))
  }

  /** The dispatching of one row of the batches query. */
  function Dispatched(env: Env, w: World, row: BatchRow, stopped: set<string>): World {
    if row.state in {Stopped, Completed} || row.id in stopped then w else Passed(env, w, row)
  }

  function DispatchedAll(env: Env, w: World, rows: seq<BatchRow>, n: nat, stopped: set<string>): World
    requires n <= |rows|
  {
    if n == 0 then w else Dispatched(env, DispatchedAll(env, w, rows, n - 1, stopped), rows[n - 1], stopped)
  }

  /** Whether a Controller is asked about the item. */
  predicate Asked(w: World, key: Key) {
    key in w.fleet.items && Busy(w.fleet.items[key]) && w.fleet.items[key].runId.Some? && SlotKnown(w.slots, w.fleet.items[key])
  }

  function PolledItem(env: Env, w: World, key: Key): World {
    if !Asked(w, key) then w
    else
      var row := Polled(w.fleet.items[key], LimitOf(w.fleet, key.batch), true, env.polls(w.now, key));
      World(WithRow(w.fleet, key, row), w.slots, w.now + 1)
  }

  function PolledItems(env: Env, w: World, keys: seq<Key>, n: nat): World
    requires n <= |keys|
  {
    if n == 0 then w else PolledItem(env, PolledItems(env, w, keys, n - 1), keys[n - 1])
  }

  function PolledBatch(env: Env, w: World, batch: string, stopped: set<string>): World {
    var keys := ItemKeys(w.fleet, batch);
    var end := PolledItems(env, w, keys, |keys|);
    end.(fleet := Refreshed(end.fleet, batch, batch in stopped))
  }

  function PolledAll(env: Env, w: World, rows: seq<BatchRow>, n: nat, stopped: set<string>): World
    requires n <= |rows|
  {
    if n == 0 then w else PolledBatch(env, PolledAll(env, w, rows, n - 1, stopped), rows[n - 1].id, stopped)
  }

  /** The batches query's rows for these tables. */
  ghost predicate Lists(rows: seq<BatchRow>, f: Fleet) {
    && (forall row :: row in rows ==> row.id in f.batches && row.state == f.batches[row.id].state && row.request.None?)
    && forall id :: id in f.batches ==> exists row :: row in rows && row.id == id
  }

  /** One tick: every batch is polled, then every batch dispatched. */
  ghost predicate Ticks(env: Env, before: World, after: World, polled: seq<BatchRow>, rows: seq<BatchRow>, stopped: set<string>) {
    var middle := PolledAll(env, before, polled, |polled|, stopped);
    Lists(polled, before.fleet) && Lists(rows, middle.fleet) && after == DispatchedAll(env, middle, rows, |rows|, stopped)
  }

  class BatchDispatcher {
    const store: FleetStore
    const env: Env
    const slots: seq<Planner.Slot>
    var now: nat
    var stopped: set<string>
    /** Everything that has happened to the tables. */
    ghost var history: seq<Step>

    ghost predicate Valid() reads this, store {
      store.Snapshot() == TakeAll(EMPTY, history)
    }

    ghost function Here(): World reads this, store { World(store.Snapshot(), slots, now) }

    constructor (store: FleetStore, env: Env, slots: seq<Planner.Slot>)
      requires store.Snapshot() == EMPTY
      ensures this.store == store && this.env == env && this.slots == slots && Valid() && stopped == {}
    {
      this.store, this.env, this.slots := store, env, slots;
      now, stopped, history := 0, {}, [];
    }

    ghost method Happened(before: Fleet, step: Step)
      requires before == TakeAll(EMPTY, history) && store.Snapshot() == Take(before, step)
      modifies this`history
      ensures Valid() && history == old(history) + [step]
    {
      RunsOneMore(Take, EMPTY, history, step);
      history := history + [step];
    }

    method FinishFailed(key: Key, item: Row, owner: Owner, deferrals: nat)
      requires key in store.items
      modifies store`items
      ensures store.items == old(store.items)[key := FinishedFailed(item, LimitOf(store.Snapshot(), key.batch), owner, deferrals)]
    {
      var limit := if key.batch in store.batches then store.batches[key.batch].request.platformRetryLimit else 2;
      var failure := Some(Failure(owner, false, deferrals));
      if owner == Platform && item.platformRetries < limit {
        store.UpdateItem(key, item.(state := Queued, slotId := None, runId := None,
                                    platformRetries := item.platformRetries + 1, failure := failure));
        return;
      }
      store.UpdateItem(key, item.(state := Failed, failure := failure));
    }

    /** `_poll_item`, for an Assigned or Running item. */
    method PollItem(key: Key)
      requires Valid() && key in store.items && Busy(store.items[key])
      modifies this, store
      ensures Valid() && stopped == old(stopped)
      ensures Here() == PolledItem(env, old(Here()), key)
    {
      var item := store.items[key];
      if item.runId.None? || !SlotKnown(slots, item) { return; }
      ghost var before := store.Snapshot();
      var answer := env.polls(now, key);
      now := now + 1;
      FileAnswer(key, item, answer);
      RowSteps(before, key, "", Created(None), true, answer);
      Happened(before, Poll(key, true, answer));
    }

    method FileAnswer(key: Key, item: Row, answer: RunAnswer)
      requires key in store.items && store.items[key] == item && Busy(item) && item.runId.Some?
      modifies store`items
      ensures store.items == old(store.items)[key := Polled(item, LimitOf(store.Snapshot(), key.batch), true, answer)]
    {
      match answer
      case Unreadable(retryable) =>
        if !retryable {
          FinishFailed(key, item, Platform, 0);
        }
      case Going =>
        if item.state != Running {
          store.UpdateItem(key, item.(state := Running));
        }
      case Ended(settled, neverRan, unfinished, report, reasons) =>
        if StopRequested(item) {
          store.UpdateItem(key, item.(state := Invalid, failure := Some(Failure(Operator, false, 0))));
        } else if !settled {
          FinishFailed(key, item, ClassifyFailure(report, 0, reasons, neverRan), 0);
        } else if unfinished {
          FinishFailed(key, item, ClassifyFailure(report, 0, reasons, false), 0);
        } else {
          store.UpdateItem(key, item.(state := Done, failure := if report.Some? then Some(Failure(Nobody, false, 0)) else None));
        }
    }

    /** `_submit`, for an item just claimed. */
    method SubmitItem(key: Key) returns (started: bool)
      requires Valid() && key in store.items && store.items[key].state == Assigned && store.items[key].runId.None?
      modifies this, store
      ensures Valid() && stopped == old(stopped) && now == old(now) + 1
      ensures store.Snapshot() == WithRow(old(store.Snapshot()), key,
                Submitted(old(store.items[key]), LimitOf(old(store.Snapshot()), key.batch), env.submits(old(now), key)))
      ensures started <==> env.submits(old(now), key).Created?
    {
      var item := store.items[key];
      ghost var before := store.Snapshot();
      var answer := env.submits(now, key);
      now := now + 1;
      started := answer.Created?;
      FileSubmission(key, item, answer);
      assert store.Snapshot() == WithRow(before, key, Submitted(item, LimitOf(before, key.batch), answer));
      RowSteps(before, key, "", answer, false, Going);
      Happened(before, Submit(key, answer));
    }

    method FileSubmission(key: Key, item: Row, answer: SubmitAnswer)
      requires key in store.items
      modifies store`items
      ensures store.items == old(store.items)[key := Submitted(item, LimitOf(store.Snapshot(), key.batch), answer)]
    {
      if answer.Created? {
        store.UpdateItem(key, item.(state := Running, runId := answer.runId, attempts := item.attempts + 1, failure := None));
      } else {
        FileRefusal(key, item, answer);
      }
    }

    method FileRefusal(key: Key, item: Row, answer: SubmitAnswer)
      requires key in store.items && answer.Refused?
      modifies store`items
      ensures store.items == old(store.items)[key := Submitted(item, LimitOf(store.Snapshot(), key.batch), answer)]
    {
      if SlotNotReadyYet(answer) {
        store.UpdateItem(key, item.(state := Queued, slotId := None, failure := Some(Failure(Nobody, false, 0))));
        return;
      }
      if UpstreamTransient(answer) {
        var deferrals := (if item.failure.Some? then item.failure.value.upstreamDeferrals else 0) + 1;
        if deferrals < UPSTREAM_DEFERRAL_LIMIT {
          store.UpdateItem(key, item.(state := Queued, slotId := None, failure := Some(Failure(Platform, false, deferrals))));
          return;
        }
        FinishFailed(key, item, Platform, deferrals);
        return;
      }
      if !answer.retryable {
        store.UpdateItem(key, item.(state := Invalid, failure := Some(Failure(Agent, false, 0))));
        return;
      }
      FinishFailed(key, item, Platform, 0);
    }

    /** `_refresh_batch_state`. */
    method RefreshBatchState(batch: string)
      requires Valid()
      modifies this, store
      ensures Valid() && stopped == old(stopped) && now == old(now)
      ensures store.Snapshot() == Refreshed(old(store.Snapshot()), batch, batch in stopped)
    {
      ghost var before := store.Snapshot();
      var tables := Fleet(store.batches, store.items);
      if KeysOf(tables, batch) != {} {
        store.SetBatchState(batch, BatchStateNow(tables, batch, batch in stopped));
      }
      assert store.Snapshot() == Refreshed(before, batch, batch in stopped);
      RefreshSteps(before, batch, batch in stopped);
      Happened(before, Refresh(batch, batch in stopped));
    }

    /** One queued item: pick a slot, claim it, submit. */
    method DispatchItem(key: Key) returns (started: bool)
      requires Valid() && key in store.items && store.items[key].state == Queued && store.items[key].runId.None?
      modifies this, store
      ensures Valid() && stopped == old(stopped)
      ensures Here() == Attempted(env, old(Here()), key)
    {
      var slot := Picked(env, World(Fleet(store.batches, store.items), slots, now), key);
      if slot.None? { return false; }
      ghost var before := store.Snapshot();
      var claimed := store.ClaimSlotForItem(key, slot.value.id);
      if !claimed { return false; }
      RowSteps(before, key, slot.value.id, Created(None), false, Going);
      Happened(before, Claim(key, slot.value.id));
      started := SubmitItem(key);
    }

    /** One turn of the loop. */
    method Consider(key: Key, cap: nat) returns (broke: bool, started: bool)
      requires Valid()
      modifies this, store
      ensures Valid() && stopped == old(stopped)
      ensures Sweep(Here(), broke) == Considered(env, Sweep(old(Here()), false), key, cap)
    {
      broke, started := false, false;
      if key !in store.items || store.items[key].state != Queued { return; }
      if cap > 0 && RunningCount(store.items) >= cap { return true, false; }
      QueuedHasNoRun(history, key);
      started := DispatchItem(key);
    }

    /** The pass over one batch. */
    method DispatchBatch(row: BatchRow) returns (dispatched: nat)
      requires Valid()
      modifies this, store
      ensures Valid() && stopped == old(stopped)
      ensures Here() == Dispatched(env, old(Here()), row, stopped)
    {
      dispatched := 0;
      if row.state == Stopped || row.state == Completed || row.id in stopped { return; }
      var concurrency := Cap(row);
      var keys := store.Items(row.id);
      ghost var start := Here();
      var n := 0;
      var broke := false;
      while n < |keys| && !broke
        invariant 0 <= n <= |keys| && Valid() && stopped == old(stopped)
        invariant Swept(env, start, keys, n, concurrency) == Sweep(Here(), broke)
        decreases |keys| - n
      {
        var started;
        broke, started := Consider(keys[n], concurrency);
        n := n + 1;
        if started {
          dispatched := dispatched + 1;
        }
      }
      if broke {
        BrokenStaysBroken(env, start, keys, n, |keys|, concurrency);
      }
      RefreshBatchState(row.id);
    }

    /** `dispatch_queued` over every batch. */
    method DispatchQueued() returns (dispatched: nat, ghost rows: seq<BatchRow>)
      requires Valid()
      modifies this, store
      ensures Valid() && stopped == old(stopped) && Lists(rows, old(store.Snapshot()))
      ensures Here() == DispatchedAll(env, old(Here()), rows, |rows|, stopped)
    {
      var listed := store.Batches();
      rows := listed;
      ghost var start := Here();
      dispatched := 0;
      for k := 0 to |listed|
        invariant Valid() && stopped == old(stopped)
        invariant Here() == DispatchedAll(env, start, listed, k, stopped)
      {
        var more := DispatchBatch(listed[k]);
        dispatched := dispatched + more;
      }
    }

    /** `poll_running` over every batch. */
    method PollRunning() returns (polled: nat, ghost rows: seq<BatchRow>)
      requires Valid()
      modifies this, store
      ensures Valid() && stopped == old(stopped) && Lists(rows, old(store.Snapshot()))
      ensures Here() == PolledAll(env, old(Here()), rows, |rows|, stopped)
    {
      var listed := store.Batches();
      rows := listed;
      ghost var start := Here();
      polled := 0;
      for k := 0 to |listed|
        invariant Valid() && stopped == old(stopped)
        invariant Here() == PolledAll(env, start, listed, k, stopped)
      {
        var more := PollBatch(listed[k].id);
        polled := polled + more;
      }
    }

    method PollBatch(batch: string) returns (polled: nat)
      requires Valid()
      modifies this, store
      ensures Valid() && stopped == old(stopped)
      ensures Here() == PolledBatch(env, old(Here()), batch, stopped)
    {
      var keys := store.Items(batch);
      ghost var start := Here();
      polled := 0;
      for n := 0 to |keys|
        invariant Valid() && stopped == old(stopped)
        invariant Here() == PolledItems(env, start, keys, n)
      {
        if keys[n] in store.items && Busy(store.items[keys[n]]) {
          polled := polled + 1;
          PollItem(keys[n]);
        }
      }
      RefreshBatchState(batch);
    }

    /** One pass of the loop: whatever it does is a run of the steps the fleet's laws are about. */
    method Tick() returns (polled: nat, dispatched: nat)
      requires Valid()
      modifies this, store
      ensures Valid() && stopped == old(stopped)
      ensures exists polledRows, rows :: Ticks(env, old(Here()), Here(), polledRows, rows, stopped)
    {
      ghost var polledRows, rows;
      polled, polledRows := PollRunning();
      dispatched, rows := DispatchQueued();
      assert Ticks(env, old(Here()), Here(), polledRows, rows, stopped);
    }
  }

  predicate SlotKnown(slots: seq<Planner.Slot>, row: Row) {
    row.slotId.Some? && exists s :: s in slots && s.id == row.slotId.value
  }

  lemma QueuedHasNoRun(steps: seq<Step>, key: Key)
    ensures var items := TakeAll(EMPTY, steps).items; key in items && items[key].state == Queued ==> items[key].runId.None?
  {
    RunKeeps(EMPTY, steps);
  }

  lemma {:induction false} BrokenStaysBroken(env: Env, w: World, keys: seq<Key>, n: nat, m: nat, cap: nat)
    requires n <= m <= |keys| && Swept(env, w, keys, n, cap).broke
    ensures Swept(env, w, keys, m, cap) == Swept(env, w, keys, n, cap)
  {
    if n < m {
      BrokenStaysBroken(env, w, keys, n, m - 1, cap);
    }
  }

  // ---------------------------------------------------------------- the in-flight cap

  /** The item would be started: a slot is free for it and the Controller accepts. */
  predicate Starts(env: Env, w: World, key: Key)
    requires key in w.fleet.items
  {
    w.fleet.items[key].state == Queued && Picked(env, w, key).Some? && env.submits(w.now, key).Created?
  }

  ghost predicate Sound(f: Fleet) { RowsSound(f) && SlotsExclusive(f) }

  lemma FreeSlotIsNotBusy(items: map<Key, Row>, slotId: string)
    requires slotId !in BusySlotIds(items)
    ensures !BusyOn(items, slotId)
  {
  }

  /** Claiming a free slot and submitting, row by row. */
  lemma ClaimThenSubmit(f: Fleet, key: Key, slotId: string, a: SubmitAnswer)
    requires Sound(f) && Claimable(f, key, slotId)
    ensures var claimed := f.items[key].(state := Assigned, slotId := Some(slotId));
            var row := Submitted(claimed, LimitOf(f, key.batch), a);
            var end := WithRow(WithRow(f, key, claimed), key, row);
            && Sound(end) && (Busy(row) <==> a.Created?) && row.state != Assigned
            && RunningCount(end.items) == RunningCount(f.items) + if a.Created? then 1 else 0
  {
    var claimed := f.items[key].(state := Assigned, slotId := Some(slotId));
    var g := WithRow(f, key, claimed);
    var row := Submitted(claimed, LimitOf(f, key.batch), a);
    UpdateKeeps(f, key, claimed);
    SubmittedIsSound(claimed, LimitOf(f, key.batch), a);
    UpdateKeeps(g, key, row);
    OnlyOneChanges(f, g, WithRow(g, key, row), key);
  }

  /** The claim of a picked slot never fails, and one dispatch adds exactly what it starts. */
  lemma AttemptCounts(env: Env, w: World, key: Key)
    requires Sound(w.fleet) && key in w.fleet.items && w.fleet.items[key].state == Queued
    ensures Picked(env, w, key).Some? ==> Claimable(w.fleet, key, Picked(env, w, key).value.id)
    ensures RunningCount(Attempted(env, w, key).fleet.items) == RunningCount(w.fleet.items) + if Starts(env, w, key) then 1 else 0
    ensures Sound(Attempted(env, w, key).fleet)
  {
    var slot := Picked(env, w, key);
    if slot.Some? {
      FreeSlotIsNotBusy(w.fleet.items, slot.value.id);
      ClaimThenSubmit(w.fleet, key, slot.value.id, env.submits(w.now, key));
    }
  }

  lemma OnlyOneChanges(f: Fleet, g: Fleet, h: Fleet, key: Key)
    requires key in f.items && !Busy(f.items[key]) && key in h.items
    requires f.items.Keys == g.items.Keys == h.items.Keys
    requires forall k :: k in f.items && k != key ==> g.items[k] == f.items[k] && h.items[k] == g.items[k]
    ensures RunningCount(h.items) == RunningCount(f.items) + if Busy(h.items[key]) then 1 else 0
  {
    assert BusyKeys(h.items) == BusyKeys(f.items) + if Busy(h.items[key]) then {key} else {};
  }

  lemma ReadCapHoldsOnce(env: Env, before: Sweep, key: Key, cap: nat)
    requires Sound(before.world.fleet) && cap > 0 && RunningCount(before.world.fleet.items) <= cap
    ensures var after := Considered(env, before, key, cap).world; Sound(after.fleet) && RunningCount(after.fleet.items) <= cap
  {
    if Considered(env, before, key, cap).world != before.world {
      AttemptCounts(env, before.world, key);
    }
  }

  /** Had the cap been read, the pass would have kept to it. */
  lemma {:induction false} ReadCapWouldHold(env: Env, w: World, keys: seq<Key>, n: nat, cap: nat)
    requires Sound(w.fleet) && n <= |keys| && cap > 0 && RunningCount(w.fleet.items) <= cap
    ensures Sound(Swept(env, w, keys, n, cap).world.fleet)
    ensures RunningCount(Swept(env, w, keys, n, cap).world.fleet.items) <= cap
  {
    if n > 0 {
      ReadCapWouldHold(env, w, keys, n - 1, cap);
      ReadCapHoldsOnce(env, Swept(env, w, keys, n - 1, cap), keys[n - 1], cap);
    }
  }

  /** Without a cap the pass never breaks off; InFlight says how far it goes. */
  lemma {:induction false} UncappedPassNeverStops(env: Env, w: World, keys: seq<Key>, n: nat)
    requires n <= |keys|
    ensures !Swept(env, w, keys, n, 0).broke
  {
    if n > 0 {
      UncappedPassNeverStops(env, w, keys, n - 1);
    }
  }

  // ---------------------------------------------------------------- waiting out an upstream

  /** A queued item claimed and refused, n times over, each time for an upstream condition. */
  function RefusedTimes(row: Row, limit: nat, slotId: string, refusal: SubmitAnswer, n: nat): Row {
    if n == 0 then row
    else
      var before := RefusedTimes(row, limit, slotId, refusal, n - 1);
      if before.state != Queued then before
      else Submitted(before.(state := Assigned, slotId := Some(slotId)), limit, refusal)
  }

  /** An item that only ever meets upstream refusals is given up on after exactly 30 + limit of them:
      29 are waited out, and since the count is kept when the item is requeued, each one from the
      30th on costs a platform retry at once. */
  lemma {:induction false} UpstreamIsWaitedOut(row: Row, limit: nat, slotId: string, refusal: SubmitAnswer, n: nat)
    requires row.state == Queued && row.platformRetries == 0 && Deferrals(row) == 0
    requires UpstreamTransient(refusal) && !SlotNotReadyYet(refusal)
    ensures var end := RefusedTimes(row, limit, slotId, refusal, n);
            && end.attempts == row.attempts
            && (n < UPSTREAM_DEFERRAL_LIMIT + limit ==>
                  end.state == Queued && Deferrals(end) == n
                  && end.platformRetries == if n < UPSTREAM_DEFERRAL_LIMIT then 0 else n - UPSTREAM_DEFERRAL_LIMIT + 1)
            && (n >= UPSTREAM_DEFERRAL_LIMIT + limit ==> end.state == Failed && end.platformRetries == limit)
  {
    if n > 0 {
      UpstreamIsWaitedOut(row, limit, slotId, refusal, n - 1);
    }
  }

  /** A refusal for an upstream condition of a slot that is ready. Status 503 never is one. */
  predicate Upstream(a: SubmitAnswer) { UpstreamTransient(a) && !SlotNotReadyYet(a) }

  /** A queued item claimed and refused once for each answer, until it fails. */
  function RefusedAll(row: Row, limit: nat, slotId: string, refusals: seq<SubmitAnswer>): Row {
    if refusals == [] then row
    else
      var before := RefusedAll(row, limit, slotId, refusals[..|refusals| - 1]);
      if before.state != Queued then before
      else Submitted(before.(state := Assigned, slotId := Some(slotId)), limit, refusals[|refusals| - 1])
  }

  /** The length of the unbroken run of upstream refusals at the end. */
  function Streak(refusals: seq<SubmitAnswer>): (n: nat)
    ensures n <= |refusals|
  {
    if refusals == [] || !Upstream(refusals[|refusals| - 1]) then 0 else 1 + Streak(refusals[..|refusals| - 1])
  }

  /** What the refusals cost: of every unbroken run of upstream refusals, all after the first 29. */
  function Charges(refusals: seq<SubmitAnswer>): nat {
    if refusals == [] then 0
    else if Streak(refusals) == 0 then Charges(refusals[..|refusals| - 1])
    else
      var n := Streak(refusals);
      Charges(refusals[..|refusals| - n]) + if n < UPSTREAM_DEFERRAL_LIMIT then 0 else n - (UPSTREAM_DEFERRAL_LIMIT - 1)
  }

  lemma OneMoreCharge(refusals: seq<SubmitAnswer>)
    requires refusals != []
    ensures Charges(refusals) == Charges(refusals[..|refusals| - 1]) + if Streak(refusals) >= UPSTREAM_DEFERRAL_LIMIT then 1 else 0
  {
    var init, n := refusals[..|refusals| - 1], Streak(refusals);
    if n >= 1 {
      assert Streak(init) == n - 1;
      assert init[..|init| - (n - 1)] == refusals[..|refusals| - n];
      if n == 1 {
        assert refusals[..|refusals| - 1] == init;
      }
    }
  }

  /** Exactly when refusals that only put an item off fail it in the end: a slot still warming up costs
      nothing and ends the run of upstream refusals before it, and of each such run every refusal from
      the 30th on costs a retry. The item fails when they cost more retries than it has left. */
  lemma {:induction false} RefusalsFailExactlyWhen(row: Row, limit: nat, slotId: string, refusals: seq<SubmitAnswer>)
    requires row.state == Queued && row.platformRetries <= limit && Deferrals(row) == 0
    requires forall a :: a in refusals ==> SlotNotReadyYet(a) || Upstream(a)
    ensures var end := RefusedAll(row, limit, slotId, refusals);
            && (end.state == Failed <==> row.platformRetries + Charges(refusals) > limit)
            && (end.state != Failed ==>
                  end.state == Queued && end.platformRetries == row.platformRetries + Charges(refusals)
                  && Deferrals(end) == Streak(refusals))
            && end.attempts == row.attempts
  {
    if refusals != [] {
      RefusalsFailExactlyWhen(row, limit, slotId, refusals[..|refusals| - 1]);
      OneMoreCharge(refusals);
      assert refusals[|refusals| - 1] in refusals;
    }
  }
}
