/** How far a pass of the dispatcher goes when it reads no cap: fleet_service/scheduler.py, exactly. */
module InFlight {
  import opened Wrappers
  import opened Iteration
  import opened FleetTables
  import opened Dispatcher
  import opened Capacity
  import Planner

  predicate Idle(slot: Planner.Slot, items: map<Key, Row>) {
    slot.phase == Planner.Ready && slot.id !in BusySlotIds(items)
  }

  function IdleSlots(slots: seq<Planner.Slot>, items: map<Key, Row>): set<Planner.Slot> {
    set s | s in slots && Idle(s, items)
  }

  ghost predicate UniqueIds(slots: seq<Planner.Slot>) {
    forall s, t :: s in slots && t in slots && s.id == t.id ==> s == t
  }

  ghost predicate DistinctKeys(keys: seq<Key>) {
    forall i, j :: 0 <= i < j < |keys| ==> keys[i] != keys[j]
  }

  predicate IsQueued(items: map<Key, Row>, key: Key) { key in items && items[key].state == Queued }

  // ---------------------------------------------------------------- one turn

  /** The busy slots after an attempt: the picked one too, if the item starts. */
  lemma AttemptedBusySlots(env: Env, w: World, key: Key)
    requires Sound(w.fleet) && IsQueued(w.fleet.items, key)
    ensures BusySlotIds(Attempted(env, w, key).fleet.items) ==
            BusySlotIds(w.fleet.items) + if Starts(env, w, key) then {Picked(env, w, key).value.id} else {}
  {
    AttemptCounts(env, w, key);
    AttemptChangesOnly(env, w, key);
    var before, after := w.fleet.items, Attempted(env, w, key).fleet.items;
    forall id
      ensures id in BusySlotIds(after) <==>
              id in BusySlotIds(before) || (Starts(env, w, key) && id == Picked(env, w, key).value.id)
    {
      if id in BusySlotIds(before) {
        var k :| k in before && Busy(before[k]) && before[k].slotId == Some(id);
        assert k != key && after[k] == before[k];
      }
    }
  }

  lemma AttemptChangesOnly(env: Env, w: World, key: Key)
    requires Sound(w.fleet) && IsQueued(w.fleet.items, key)
    ensures var after := Attempted(env, w, key);
            && after.slots == w.slots && after.fleet.items.Keys == w.fleet.items.Keys
            && (forall k :: k in w.fleet.items && k != key ==> after.fleet.items[k] == w.fleet.items[k])
            && (Starts(env, w, key) ==> Busy(after.fleet.items[key]) && after.fleet.items[key].slotId == Some(Picked(env, w, key).value.id))
            && (!Starts(env, w, key) ==> !Busy(after.fleet.items[key]))
  {
    var slot := Picked(env, w, key);
    if slot.Some? {
      FreeSlotIsNotBusy(w.fleet.items, slot.value.id);
      var claimed := w.fleet.items[key].(state := Assigned, slotId := Some(slot.value.id));
      SubmittedKeepsSlot(claimed, LimitOf(w.fleet, key.batch), env.submits(w.now, key));
    }
  }

  lemma SubmittedKeepsSlot(row: Row, limit: nat, a: SubmitAnswer)
    requires row.state == Assigned
    ensures Busy(Submitted(row, limit, a)) <==> a.Created?
    ensures a.Created? ==> Submitted(row, limit, a).slotId == row.slotId
  {
  }

  /** One attempt takes its slot from the idle ones, if the item starts, and touches no other row. */
  lemma AttemptTakesSlot(env: Env, w: World, key: Key)
    requires Sound(w.fleet) && UniqueIds(w.slots) && IsQueued(w.fleet.items, key)
    ensures var after := Attempted(env, w, key);
            && Sound(after.fleet) && after.slots == w.slots
            && RunningCount(after.fleet.items) == RunningCount(w.fleet.items) + (if Starts(env, w, key) then 1 else 0)
            && IdleSlots(after.slots, after.fleet.items)
               == IdleSlots(w.slots, w.fleet.items) - (if Starts(env, w, key) then {Picked(env, w, key).value} else {})
  {
    AttemptCounts(env, w, key);
    AttemptedBusySlots(env, w, key);
    AttemptChangesOnly(env, w, key);
    if Starts(env, w, key) {
      PickedIsIdle(env, w, key);
    }
  }

  lemma PickedIsIdle(env: Env, w: World, key: Key)
    requires key in w.fleet.items && Picked(env, w, key).Some?
    ensures var slot := Picked(env, w, key).value;
            slot in IdleSlots(w.slots, w.fleet.items) && (w.fleet.items[key].pin == "" || slot.namespace == w.fleet.items[key].pin)
  {
    var row := w.fleet.items[key];
    var candidates := Candidates(w.slots, BusySlotIds(w.fleet.items), row.pin);
    assert Picked(env, w, key).value in candidates;
  }

  lemma NonePickedMeansNoneIdle(env: Env, w: World, key: Key)
    requires key in w.fleet.items && Picked(env, w, key).None?
    ensures var idle, pin := IdleSlots(w.slots, w.fleet.items), w.fleet.items[key].pin;
            (if pin == "" then idle else IdleIn(idle, pin)) == {}
  {
    var candidates := Candidates(w.slots, BusySlotIds(w.fleet.items), w.fleet.items[key].pin);
    assert forall s :: s in IdleSlots(w.slots, w.fleet.items) && (w.fleet.items[key].pin == "" || s.namespace == w.fleet.items[key].pin)
                       ==> s in candidates;
  }

  // ---------------------------------------------------------------- what a pass can reach

  /** How many of the items from the nth on are queued for this namespace. */
  function Waiting(items: map<Key, Row>, keys: seq<Key>, n: nat, pin: string): nat
    requires n <= |keys|
    decreases |keys| - n
  {
    if n == |keys| then 0
    else Waiting(items, keys, n + 1, pin) + if IsQueued(items, keys[n]) && items[keys[n]].pin == pin then 1 else 0
  }

  function WaitingFrom(items: map<Key, Row>, keys: seq<Key>, n: nat): string -> nat
    requires n <= |keys|
  {
    (pin: string) => Waiting(items, keys, n, pin)
  }

  /** The most the rest of a pass can leave in flight. */
  function ReachFrom(w: World, keys: seq<Key>, n: nat): nat
    requires n <= |keys|
  {
    Reachable(RunningCount(w.fleet.items), IdleSlots(w.slots, w.fleet.items), Spaces(w.slots), WaitingFrom(w.fleet.items, keys, n))
  }

  /** What is in flight, and the lesser of the idle slots and of what can use them: every queued item
      without a pin, and of each namespace as many pinned ones as it has idle slots. */
  function Reach(w: World, keys: seq<Key>): nat { ReachFrom(w, keys, 0) }

  /** At the end of a pass what is in flight is all it can reach. */
  lemma ReachAtTheEnd(w: World, keys: seq<Key>)
    ensures ReachFrom(w, keys, |keys|) == RunningCount(w.fleet.items)
  {
    NoneFit(IdleSlots(w.slots, w.fleet.items), Spaces(w.slots), WaitingFrom(w.fleet.items, keys, |keys|));
  }

  lemma {:induction false} NoneFit(idle: set<Planner.Slot>, spaces: seq<string>, waiting: string -> nat)
    requires forall pin :: pin != "" ==> waiting(pin) == 0
    ensures Sum(spaces, Fits(idle, waiting)) == 0
  {
    if spaces != [] {
      NoneFit(idle, spaces[..|spaces| - 1], waiting);
    }
  }

  /** The rows of the items still to come are what they were. */
  ghost predicate Untouched(w: World, keys: seq<Key>, n: nat, now: World)
    requires n <= |keys|
  {
    && Sound(now.fleet) && now.slots == w.slots && now.fleet.items.Keys == w.fleet.items.Keys
    && forall m :: n <= m < |keys| && keys[m] in w.fleet.items ==> now.fleet.items[keys[m]] == w.fleet.items[keys[m]]
  }

  lemma {:induction false} SameWaiting(items: map<Key, Row>, others: map<Key, Row>, keys: seq<Key>, n: nat, pin: string)
    requires n <= |keys| && items.Keys == others.Keys
    requires forall m :: n <= m < |keys| && keys[m] in items ==> items[keys[m]] == others[keys[m]]
    ensures Waiting(items, keys, n, pin) == Waiting(others, keys, n, pin)
    decreases |keys| - n
  {
    if n < |keys| {
      SameWaiting(items, others, keys, n + 1, pin);
    }
  }

  /** The turn's choice gives no item's last slot away while another would do. */
  ghost predicate Thrifty(env: Env, now: World, keys: seq<Key>, n: nat)
    requires n < |keys|
  {
    var key, idle, waiting := keys[n], IdleSlots(now.slots, now.fleet.items), WaitingFrom(now.fleet.items, keys, n);
    IsQueued(now.fleet.items, key) && now.fleet.items[key].pin == "" && Picked(env, now, key).Some? ==>
      Spare(idle, waiting, Picked(env, now, key).value) || forall s :: s in idle ==> !Spare(idle, waiting, s)
  }

  ghost predicate Obliging(env: Env) {
    forall now, key :: env.submits(now, key).Created?
  }

  lemma StartedTurn(env: Env, before: World, keys: seq<Key>, n: nat)
    requires Sound(before.fleet) && UniqueIds(before.slots) && DistinctKeys(keys) && n < |keys|
    requires IsQueued(before.fleet.items, keys[n]) && Starts(env, before, keys[n])
    ensures var after := Attempted(env, before, keys[n]);
            && ReachFrom(after, keys, n + 1) <= ReachFrom(before, keys, n)
            && (Thrifty(env, before, keys, n) ==> ReachFrom(after, keys, n + 1) == ReachFrom(before, keys, n))
  {
    var key, after := keys[n], Attempted(env, before, keys[n]);
    var running, idle, spaces := RunningCount(before.fleet.items), IdleSlots(before.slots, before.fleet.items), Spaces(before.slots);
    var was, left := WaitingFrom(before.fleet.items, keys, n), WaitingFrom(after.fleet.items, keys, n + 1);
    var slot := Picked(env, before, key).value;
    AttemptTakesSlot(env, before, key);
    AttemptWaiting(env, before, keys, n);
    PickedIsIdle(env, before, key);
    assert ReachFrom(after, keys, n + 1) == Reachable(running + 1, idle - {slot}, spaces, left);
    if before.fleet.items[key].pin == "" {
      ServedAnywhere(running, idle, spaces, was, left, slot);
    } else {
      ServedInPlace(running, idle, spaces, was, left, slot);
    }
  }

  lemma UnstartedTurn(env: Env, before: World, keys: seq<Key>, n: nat)
    requires Sound(before.fleet) && UniqueIds(before.slots) && DistinctKeys(keys) && n < |keys|
    requires IsQueued(before.fleet.items, keys[n]) && !Starts(env, before, keys[n])
    ensures var after := Attempted(env, before, keys[n]);
            && ReachFrom(after, keys, n + 1) <= ReachFrom(before, keys, n)
            && (Obliging(env) ==> ReachFrom(after, keys, n + 1) == ReachFrom(before, keys, n))
  {
    AttemptTakesSlot(env, before, keys[n]);
    AttemptWaiting(env, before, keys, n);
    WaitsNoLonger(before, Attempted(env, before, keys[n]), keys, n, before.fleet.items[keys[n]].pin);
    if Picked(env, before, keys[n]).None? {
      NonePickedMeansNoneIdle(env, before, keys[n]);
    }
  }

  lemma WaitsNoLonger(before: World, after: World, keys: seq<Key>, n: nat, pin: string)
    requires n < |keys| && after.slots == before.slots
    requires RunningCount(after.fleet.items) == RunningCount(before.fleet.items)
    requires IdleSlots(after.slots, after.fleet.items) == IdleSlots(before.slots, before.fleet.items)
    requires OneFewer(WaitingFrom(before.fleet.items, keys, n), WaitingFrom(after.fleet.items, keys, n + 1), pin)
    ensures ReachFrom(after, keys, n + 1) <= ReachFrom(before, keys, n)
    ensures var idle := IdleSlots(before.slots, before.fleet.items);
            (if pin == "" then idle else IdleIn(idle, pin)) == {} ==> ReachFrom(after, keys, n + 1) == ReachFrom(before, keys, n)
  {
    Unserved(RunningCount(before.fleet.items), IdleSlots(before.slots, before.fleet.items), Spaces(before.slots),
             WaitingFrom(before.fleet.items, keys, n), WaitingFrom(after.fleet.items, keys, n + 1), pin);
  }

  lemma AttemptWaiting(env: Env, before: World, keys: seq<Key>, n: nat)
    requires Sound(before.fleet) && UniqueIds(before.slots) && DistinctKeys(keys) && n < |keys|
    requires IsQueued(before.fleet.items, keys[n])
    ensures Untouched(before, keys, n + 1, Attempted(env, before, keys[n]))
    ensures OneFewer(WaitingFrom(before.fleet.items, keys, n),
                     WaitingFrom(Attempted(env, before, keys[n]).fleet.items, keys, n + 1), before.fleet.items[keys[n]].pin)
  {
    var after := Attempted(env, before, keys[n]);
    AttemptTakesSlot(env, before, keys[n]);
    AttemptChangesOnly(env, before, keys[n]);
    TurnUntouched(before, keys, n, after);
    TurnWaiting(before, keys, n, after);
  }

  lemma SkippedTurn(now: World, keys: seq<Key>, n: nat)
    requires n < |keys| && !IsQueued(now.fleet.items, keys[n])
    ensures ReachFrom(now, keys, n + 1) == ReachFrom(now, keys, n)
  {
    SameReach(RunningCount(now.fleet.items), IdleSlots(now.slots, now.fleet.items), Spaces(now.slots),
              WaitingFrom(now.fleet.items, keys, n), WaitingFrom(now.fleet.items, keys, n + 1));
  }

  /** One turn never raises what the pass can reach, and with an obliging Controller and a thrifty
      choice it keeps it. */
  lemma TurnReaches(env: Env, before: World, keys: seq<Key>, n: nat, after: World)
    requires Sound(before.fleet) && UniqueIds(before.slots) && DistinctKeys(keys) && n < |keys|
    requires after == Considered(env, Sweep(before, false), keys[n], 0).world
    ensures Untouched(before, keys, n + 1, after)
    ensures ReachFrom(after, keys, n + 1) <= ReachFrom(before, keys, n)
    ensures Obliging(env) && Thrifty(env, before, keys, n) ==> ReachFrom(after, keys, n + 1) == ReachFrom(before, keys, n)
  {
    if !IsQueued(before.fleet.items, keys[n]) {
      SkippedTurn(before, keys, n);
    } else {
      assert after == Attempted(env, before, keys[n]);
      AttemptWaiting(env, before, keys, n);
      if Starts(env, before, keys[n]) {
        StartedTurn(env, before, keys, n);
      } else {
        UnstartedTurn(env, before, keys, n);
      }
    }
  }

  lemma TurnUntouched(before: World, keys: seq<Key>, n: nat, after: World)
    requires DistinctKeys(keys) && n < |keys| && Sound(after.fleet) && after.slots == before.slots
    requires after.fleet.items.Keys == before.fleet.items.Keys
    requires forall k :: k in before.fleet.items && k != keys[n] ==> after.fleet.items[k] == before.fleet.items[k]
    ensures Untouched(before, keys, n + 1, after)
  {
    forall m | n + 1 <= m < |keys| && keys[m] in before.fleet.items
      ensures after.fleet.items[keys[m]] == before.fleet.items[keys[m]]
    {
      assert keys[m] != keys[n];
    }
  }

  lemma TurnWaiting(before: World, keys: seq<Key>, n: nat, after: World)
    requires n < |keys| && IsQueued(before.fleet.items, keys[n]) && Untouched(before, keys, n + 1, after)
    ensures OneFewer(WaitingFrom(before.fleet.items, keys, n), WaitingFrom(after.fleet.items, keys, n + 1),
                     before.fleet.items[keys[n]].pin)
  {
    var was, left := WaitingFrom(before.fleet.items, keys, n), WaitingFrom(after.fleet.items, keys, n + 1);
    forall pin: string
      ensures was(pin) == left(pin) + if pin == before.fleet.items[keys[n]].pin then 1 else 0
    {
      SameWaiting(after.fleet.items, before.fleet.items, keys, n + 1, pin);
    }
  }

  // ---------------------------------------------------------------- a whole pass

  /** Where an uncapped pass stands after n turns. */
  function At(env: Env, w: World, keys: seq<Key>, n: nat): World
    requires n <= |keys|
  {
    Swept(env, w, keys, n, 0).world
  }

  lemma NextTurn(env: Env, w: World, keys: seq<Key>, n: nat)
    requires 0 < n <= |keys|
    ensures At(env, w, keys, n) == Considered(env, Sweep(At(env, w, keys, n - 1), false), keys[n - 1], 0).world
  {
    UncappedPassNeverStops(env, w, keys, n - 1);
  }

  lemma {:induction false} PassReaches(env: Env, w: World, keys: seq<Key>, n: nat)
    requires Sound(w.fleet) && UniqueIds(w.slots) && DistinctKeys(keys) && n <= |keys|
    ensures Untouched(w, keys, n, At(env, w, keys, n)) && ReachFrom(At(env, w, keys, n), keys, n) <= Reach(w, keys)
    ensures Obliging(env) && ThriftyUpTo(env, w, keys, n) ==> ReachFrom(At(env, w, keys, n), keys, n) == Reach(w, keys)
  {
    if n > 0 {
      PassReaches(env, w, keys, n - 1);
      PassReachesNext(env, w, keys, n);
    }
  }

  ghost predicate ThriftyUpTo(env: Env, w: World, keys: seq<Key>, n: nat)
    requires n <= |keys|
  {
    forall m :: 0 <= m < n ==> Thrifty(env, At(env, w, keys, m), keys, m)
  }

  lemma PassReachesNext(env: Env, w: World, keys: seq<Key>, n: nat)
    requires UniqueIds(w.slots) && DistinctKeys(keys) && 0 < n <= |keys|
    requires Untouched(w, keys, n - 1, At(env, w, keys, n - 1))
    ensures Untouched(w, keys, n, At(env, w, keys, n))
    ensures ReachFrom(At(env, w, keys, n), keys, n) <= ReachFrom(At(env, w, keys, n - 1), keys, n - 1)
    ensures Obliging(env) && Thrifty(env, At(env, w, keys, n - 1), keys, n - 1) ==>
              ReachFrom(At(env, w, keys, n), keys, n) == ReachFrom(At(env, w, keys, n - 1), keys, n - 1)
  {
    NextTurn(env, w, keys, n);
    TurnReaches(env, At(env, w, keys, n - 1), keys, n - 1, At(env, w, keys, n));
  }

  /** How many are in flight after a pass over the items. */
  function InFlightAfter(env: Env, w: World, keys: seq<Key>, cap: nat): nat {
    RunningCount(Swept(env, w, keys, |keys|, cap).world.fleet.items)
  }

  /** No pass leaves more in flight than it can reach. */
  lemma PassGrowsAtMost(env: Env, w: World, keys: seq<Key>)
    requires Sound(w.fleet) && UniqueIds(w.slots) && DistinctKeys(keys)
    ensures InFlightAfter(env, w, keys, 0) <= Reach(w, keys)
  {
    PassReaches(env, w, keys, |keys|);
    ReachAtTheEnd(At(env, w, keys, |keys|), keys);
  }

  // ---------------------------------------------------------------- and that much is reached

  /** Controllers that take everything, and choose the first candidate. */
  const OBLIGING := Env((_, _) => Created(Some("run")), (_, _) => Going, (_, _) => 0)

  /** The same Controllers, but for this key the candidate of this number is chosen. */
  function Choosing(env: Env, key: Key, choice: nat): Env {
    Env(env.submits, env.polls, ChoosingFor(env.choose, key, choice))
  }

  function ChoosingFor(choose: (Key, nat) -> nat, key: Key, choice: nat): (Key, nat) -> nat {
    (k: Key, count: nat) => if k == key then choice else choose(k, count)
  }

  /** A choice matters at its own turn only. */
  lemma {:induction false} ChoiceIsLocal(env: Env, w: World, keys: seq<Key>, n: nat, key: Key, choice: nat)
    requires n <= |keys| && forall m :: 0 <= m < n ==> keys[m] != key
    ensures Swept(Choosing(env, key, choice), w, keys, n, 0) == Swept(env, w, keys, n, 0)
  {
    if n > 0 {
      ChoiceIsLocal(env, w, keys, n - 1, key, choice);
    }
  }

  lemma SmallRemainder(k: nat, n: nat)
    requires k < n
    ensures k % n == k
  {
  }

  lemma ChoosingPicks(env: Env, now: World, key: Key, s: Planner.Slot) returns (choice: nat)
    requires key in now.fleet.items && s in Candidates(now.slots, BusySlotIds(now.fleet.items), now.fleet.items[key].pin)
    ensures Picked(Choosing(env, key, choice), now, key) == Some(s)
  {
    var candidates := Candidates(now.slots, BusySlotIds(now.fleet.items), now.fleet.items[key].pin);
    choice :| 0 <= choice < |candidates| && candidates[choice] == s;
    SmallRemainder(choice, |candidates|);
  }

  /** Some choice is thrifty. */
  lemma ThriftyChoice(env: Env, now: World, keys: seq<Key>, n: nat) returns (choice: nat)
    requires n < |keys|
    ensures Thrifty(Choosing(env, keys[n], choice), now, keys, n)
  {
    choice := 0;
    var idle, waiting := IdleSlots(now.slots, now.fleet.items), WaitingFrom(now.fleet.items, keys, n);
    if IsQueued(now.fleet.items, keys[n]) && now.fleet.items[keys[n]].pin == "" && exists s :: s in idle && Spare(idle, waiting, s) {
      var s :| s in idle && Spare(idle, waiting, s);
      choice := ChoosingPicks(env, now, keys[n], s);
    }
  }

  lemma {:induction false} ThriftyPass(w: World, keys: seq<Key>, n: nat) returns (env: Env)
    requires DistinctKeys(keys) && n <= |keys|
    ensures Obliging(env) && ThriftyUpTo(env, w, keys, n)
  {
    if n == 0 {
      env := OBLIGING;
    } else {
      var before := ThriftyPass(w, keys, n - 1);
      var choice := ThriftyChoice(before, At(before, w, keys, n - 1), keys, n - 1);
      env := Choosing(before, keys[n - 1], choice);
      forall m | 0 <= m < n
        ensures Thrifty(env, At(env, w, keys, m), keys, m)
      {
        ChoiceIsLocal(before, w, keys, m, keys[n - 1], choice);
        if m < n - 1 {
          assert keys[m] != keys[n - 1];
          assert Thrifty(before, At(before, w, keys, m), keys, m);
        }
      }
    }
  }

  lemma PassCanReach(w: World, keys: seq<Key>) returns (env: Env)
    requires Sound(w.fleet) && UniqueIds(w.slots) && DistinctKeys(keys)
    ensures InFlightAfter(env, w, keys, 0) == Reach(w, keys)
  {
    env := ThriftyPass(w, keys, |keys|);
    PassReaches(env, w, keys, |keys|);
    ReachAtTheEnd(At(env, w, keys, |keys|), keys);
  }

  /** Exactly when a pass keeps a cap it does not read: the rows carry no request, so the pass stays
      within a cap for certain just when everything it could start does. The cap has no part in it. */
  lemma CapHoldsExactlyWhen(w: World, row: BatchRow, keys: seq<Key>, cap: nat)
    requires Sound(w.fleet) && UniqueIds(w.slots) && DistinctKeys(keys) && row.request.None?
    ensures (forall env :: InFlightAfter(env, w, keys, Cap(row)) <= cap) <==> Reach(w, keys) <= cap
  {
    assert Cap(row) == 0;
    forall env
      ensures InFlightAfter(env, w, keys, 0) <= Reach(w, keys)
    {
      PassGrowsAtMost(env, w, keys);
    }
    var env := PassCanReach(w, keys);
  }

  ghost predicate NoPins(w: World, keys: seq<Key>) {
    forall m :: 0 <= m < |keys| && IsQueued(w.fleet.items, keys[m]) ==> w.fleet.items[keys[m]].pin == ""
  }

  lemma {:induction false} NonePinned(w: World, keys: seq<Key>, n: nat, pin: string)
    requires NoPins(w, keys) && n <= |keys| && pin != ""
    ensures Waiting(w.fleet.items, keys, n, pin) == 0
    decreases |keys| - n
  {
    if n < |keys| {
      NonePinned(w, keys, n + 1, pin);
    }
  }

  /** Without pins that is the lesser of the queue and the idle slots, whatever is chosen. */
  lemma WithoutPins(env: Env, w: World, keys: seq<Key>)
    requires Sound(w.fleet) && UniqueIds(w.slots) && DistinctKeys(keys) && NoPins(w, keys)
    ensures Reach(w, keys) ==
            RunningCount(w.fleet.items) + Min(|IdleSlots(w.slots, w.fleet.items)|, Waiting(w.fleet.items, keys, 0, ""))
    ensures Obliging(env) ==> InFlightAfter(env, w, keys, 0) == Reach(w, keys)
  {
    forall pin | pin != ""
      ensures Waiting(w.fleet.items, keys, 0, pin) == 0
    {
      NonePinned(w, keys, 0, pin);
    }
    NoneFit(IdleSlots(w.slots, w.fleet.items), Spaces(w.slots), WaitingFrom(w.fleet.items, keys, 0));
    forall m | 0 <= m < |keys|
      ensures Thrifty(env, At(env, w, keys, m), keys, m)
    {
      AnyChoiceIsThrifty(env, w, keys, m);
    }
    PassReaches(env, w, keys, |keys|);
    ReachAtTheEnd(At(env, w, keys, |keys|), keys);
  }

  lemma AnyChoiceIsThrifty(env: Env, w: World, keys: seq<Key>, m: nat)
    requires Sound(w.fleet) && UniqueIds(w.slots) && DistinctKeys(keys) && NoPins(w, keys) && m < |keys|
    ensures Thrifty(env, At(env, w, keys, m), keys, m)
  {
    PassReaches(env, w, keys, m);
    var now, key := At(env, w, keys, m), keys[m];
    if key in now.fleet.items && Picked(env, now, key).Some? {
      var slot := Picked(env, now, key).value;
      var idle := IdleSlots(now.slots, now.fleet.items);
      PickedIsIdle(env, now, key);
      assert slot in IdleIn(idle, slot.namespace);
      if slot.namespace != "" {
        SameWaiting(now.fleet.items, w.fleet.items, keys, m, slot.namespace);
        NonePinned(w, keys, m, slot.namespace);
      }
    }
  }

  // ---------------------------------------------------------------- the cap exceeded

  /** A batch of two items that asked for one at a time. */
  const ASKED_FOR_ONE := Create("b", Request(Some(1), 2), map["i" := "", "j" := ""], ["i", "j"])

  /** On the fleet that has just taken that batch, with two ready slots and Controllers that take
      everything, dispatching the batch as the query lists it puts two items in flight. */
  lemma CapOfOneIsExceeded(s: Planner.Slot, t: Planner.Slot)
    requires s.id != t.id && s.phase == Planner.Ready && t.phase == Planner.Ready
    ensures var f := TakeAll(EMPTY, [ASKED_FOR_ONE]);
            var row := BatchRow("b", Scheduled, None);
            && Lists([row], f) && f.batches["b"].request.maxConcurrency == Some(1)
            && RunningCount(DispatchedAll(OBLIGING, World(f, [s, t], 0), [row], 1, {}).fleet.items) == 2
  {
    var f, row := TakeAll(EMPTY, [ASKED_FOR_ONE]), BatchRow("b", Scheduled, None);
    var w, i, j := World(f, [s, t], 0), Key("b", "i"), Key("b", "j");
    TwoItemBatch();
    assert row in [row];
    TwoItemsReach(w, i, j, s, t);
    DispatchIsThePass(OBLIGING, w, row);
  }

  lemma TwoItemBatch()
    ensures Sound(TakeAll(EMPTY, [ASKED_FOR_ONE]))
    ensures var f := TakeAll(EMPTY, [ASKED_FOR_ONE]);
            && f.batches == map["b" := Batch(Scheduled, Request(Some(1), 2), ["i", "j"])]
            && f.items == map[Key("b", "i") := Fresh(""), Key("b", "j") := Fresh("")]
            && ItemKeys(f, "b") == [Key("b", "i"), Key("b", "j")]
  {
    assert TakeAll(EMPTY, [ASKED_FOR_ONE]) == Take(EMPTY, ASKED_FOR_ONE) by {
      RunsOneMore(Take, EMPTY, [], ASKED_FOR_ONE);
      assert [] + [ASKED_FOR_ONE] == [ASKED_FOR_ONE];
    }
    assert Sound(TakeAll(EMPTY, [ASKED_FOR_ONE])) by {
      RunKeeps(EMPTY, [ASKED_FOR_ONE]);
    }
    TwoItemsCreated();
  }

  lemma TwoItemsCreated()
    ensures var f := Take(EMPTY, ASKED_FOR_ONE);
            && f.batches == map["b" := Batch(Scheduled, Request(Some(1), 2), ["i", "j"])]
            && f.items == map[Key("b", "i") := Fresh(""), Key("b", "j") := Fresh("")]
            && ItemKeys(f, "b") == [Key("b", "i"), Key("b", "j")]
  {
    TwoItemsSeeded();
    var f := Take(EMPTY, ASKED_FOR_ONE);
    assert f.batches == map["b" := Batch(Scheduled, Request(Some(1), 2), ["i", "j"])];
    assert ["i", "j"][0] == "i" && ["i", "j"][1] == "j";
  }

  lemma TwoItemsSeeded()
    ensures map[] + Seeded("b", map["i" := "", "j" := ""]) == map[Key("b", "i") := Fresh(""), Key("b", "j") := Fresh("")]
  {
    var pins := map["i" := "", "j" := ""];
    var seeded := Seeded("b", pins);
    forall k
      ensures k in seeded <==> k == Key("b", "i") || k == Key("b", "j")
    {
      assert k.item in pins <==> k.item == "i" || k.item == "j";
    }
  }

  /** Dispatching a row of the query leaves in flight what the pass over its items does. */
  lemma DispatchIsThePass(env: Env, w: World, row: BatchRow)
    requires row.request.None? && row.state == Scheduled
    ensures RunningCount(DispatchedAll(env, w, [row], 1, {}).fleet.items) == InFlightAfter(env, w, ItemKeys(w.fleet, row.id), 0)
  {
    assert DispatchedAll(env, w, [row], 0, {}) == w;
    assert DispatchedAll(env, w, [row], 1, {}) == Passed(env, w, row);
    var keys := ItemKeys(w.fleet, row.id);
    RefreshKeepsItems(Swept(env, w, keys, |keys|, 0).world.fleet, row.id);
  }

  lemma TwoItemsReach(w: World, i: Key, j: Key, s: Planner.Slot, t: Planner.Slot)
    requires Sound(w.fleet) && i != j && w.fleet.items == map[i := Fresh(""), j := Fresh("")]
    requires s.id != t.id && s.phase == Planner.Ready && t.phase == Planner.Ready && w.slots == [s, t]
    ensures InFlightAfter(OBLIGING, w, [i, j], 0) == 2
  {
    TwoItemsQueued(w, i, j, s, t);
    WithoutPins(OBLIGING, w, [i, j]);
  }

  lemma RefreshKeepsItems(f: Fleet, batch: string)
    ensures Refreshed(f, batch, false).items == f.items
  {
  }

  lemma TwoItemsQueued(w: World, i: Key, j: Key, s: Planner.Slot, t: Planner.Slot)
    requires i != j && w.fleet.items == map[i := Fresh(""), j := Fresh("")]
    requires s.id != t.id && s.phase == Planner.Ready && t.phase == Planner.Ready && w.slots == [s, t]
    ensures RunningCount(w.fleet.items) == 0 && Waiting(w.fleet.items, [i, j], 0, "") == 2
    ensures |IdleSlots(w.slots, w.fleet.items)| == 2 && UniqueIds(w.slots) && DistinctKeys([i, j])
  {
    assert BusyKeys(w.fleet.items) == {} && BusySlotIds(w.fleet.items) == {};
    assert IdleSlots(w.slots, w.fleet.items) == {s, t};
    assert Waiting(w.fleet.items, [i, j], 2, "") == 0;
    assert Waiting(w.fleet.items, [i, j], 1, "") == 1;
  }
}
