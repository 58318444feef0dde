/** The batch planner: `plan_batch` of fleet_service/scheduler.py. The seeded shuffles are arbitrary
    permutations. */
module Planner {
  import opened Wrappers
  import opened Sequences

  datatype SlotPhase = Provisioning | Ready | Busy | PhaseFailed | Draining

  datatype Slot = Slot(id: string, index: int, namespace: string, phase: SlotPhase)

  /** A batch item with the namespace it resolves to, empty when it pins none. */
  datatype Item = Item(id: string, pin: string)

  datatype Assignment = Assignment(itemId: string, slotId: string, namespace: string, wave: nat)

  datatype PlanError = PinNotReady(itemId: string) | NoReadySlot

  /** What the slots table and the batch contract guarantee of the inputs. */
  ghost predicate UniqueSlots(slots: seq<Slot>) {
    forall i, j :: 0 <= i < j < |slots| ==>
      slots[i].id != slots[j].id && slots[i].index != slots[j].index && slots[i].namespace != slots[j].namespace
  }

  ghost predicate UniqueItems(items: seq<Item>) {
    forall i, j :: 0 <= i < j < |items| ==> items[i].id != items[j].id
  }

  // ---------------------------------------------------------------- what is planned

  function ReadySlots(slots: seq<Slot>): (ready: seq<Slot>)
    ensures forall s :: s in ready <==> s in slots && (s.phase == Ready || s.phase == Busy)
  {
    if slots == [] then []
    else
      var last := slots[|slots| - 1];
      ReadySlots(slots[..|slots| - 1]) + if last.phase == Ready || last.phase == Busy then [last] else []
  }

  /** The last slot of a namespace, as a dictionary built in order keeps it. */
  function ByNamespace(ready: seq<Slot>, namespace: string): (slot: Option<Slot>)
    ensures slot.Some? ==> slot.value in ready && slot.value.namespace == namespace
    ensures slot.None? ==> forall s :: s in ready ==> s.namespace != namespace
  {
    if ready == [] then None
    else if ready[|ready| - 1].namespace == namespace then Some(ready[|ready| - 1])
    else ByNamespace(ready[..|ready| - 1], namespace)
  }

  function Truthy(value: Option<int>, otherwise: int): int {
    if value.Some? && value.value != 0 then value.value else otherwise
  }

  function Max(a: int, b: int): int { if a >= b then a else b }

  function Min(a: int, b: int): int { if a <= b then a else b }

  function Concurrency(override: Option<int>, requested: Option<int>, ready: nat): (c: int)
    ensures 1 <= c <= Max(ready, 1)
  {
    Max(1, Min(Truthy(override, Truthy(requested, Truthy(Some(ready), 1))), Max(ready, 1)))
  }

  function Usable(free: seq<Slot>, concurrency: int): seq<Slot>
    requires concurrency >= 1
  {
    free[..Min(concurrency, |free|)]
  }

  predicate PinFails(ready: seq<Slot>, item: Item) {
    item.pin != "" && ByNamespace(ready, item.pin).None?
  }

  function Pins(items: seq<Item>): seq<Item> {
    if items == [] then []
    else Pins(items[..|items| - 1]) + if items[|items| - 1].pin != "" then [items[|items| - 1]] else []
  }

  function Floaters(items: seq<Item>): seq<Item> {
    if items == [] then []
    else Floaters(items[..|items| - 1]) + if items[|items| - 1].pin == "" then [items[|items| - 1]] else []
  }

  ghost predicate PinsHold(ready: seq<Slot>, items: seq<Item>) {
    forall i :: 0 <= i < |items| ==> !PinFails(ready, items[i])
  }

  /** Where the pinned items go, in request order. */
  function PinnedSlots(ready: seq<Slot>, items: seq<Item>): (taken: seq<Slot>)
    requires PinsHold(ready, items)
    ensures |taken| == |Pins(items)|
    ensures forall k :: 0 <= k < |taken| ==> taken[k] in ready && taken[k].namespace == Pins(items)[k].pin
  {
    if items == [] then []
    else
      var init, last := items[..|items| - 1], items[|items| - 1];
      PinnedSlots(ready, init) + if last.pin != "" then [ByNamespace(ready, last.pin).value] else []
  }

  /** How many of the placements so far are on one slot. */
  function Count(taken: seq<Slot>, id: string): nat {
    if taken == [] then 0
    else Count(taken[..|taken| - 1], id) + if taken[|taken| - 1].id == id then 1 else 0
  }

  predicate Before(taken: seq<Slot>, a: Slot, b: Slot) {
    Count(taken, a.id) < Count(taken, b.id) || (Count(taken, a.id) == Count(taken, b.id) && a.index <= b.index)
  }

  /** The first usable slot of least load, then least index. */
  function Least(usable: seq<Slot>, taken: seq<Slot>): (slot: Slot)
    requires usable != []
    ensures slot in usable && forall s :: s in usable ==> Count(taken, slot.id) <= Count(taken, s.id)
  {
    if |usable| == 1 then usable[0]
    else
      var best := Least(usable[..|usable| - 1], taken);
      var last := usable[|usable| - 1];
      if Before(taken, best, last) then best else last
  }

  function Greedy(usable: seq<Slot>, taken: seq<Slot>, n: nat): (all: seq<Slot>)
    requires usable != [] || n == 0
    ensures |all| == |taken| + n && all[..|taken|] == taken
    ensures forall k :: |taken| <= k < |all| ==> all[k] in usable
  {
    if n == 0 then taken
    else
      var before := Greedy(usable, taken, n - 1);
      before + [Least(usable, before)]
  }

  /** Placing the items one after the other, each in the next wave of its slot. */
  function Placed(items: seq<Item>, taken: seq<Slot>): (plan: seq<Assignment>)
    requires |items| == |taken|
    ensures |plan| == |items|
    ensures forall k :: 0 <= k < |plan| ==>
              plan[k] == Assignment(items[k].id, taken[k].id, taken[k].namespace, Count(taken[..k], taken[k].id))
  {
    seq(|items|, k requires 0 <= k < |items| =>
      Assignment(items[k].id, taken[k].id, taken[k].namespace, Count(taken[..k], taken[k].id)))
  }

  /** Everything the plan is made of: the items in placing order and their slots. */
  datatype Layout = Layout(items: seq<Item>, taken: seq<Slot>)

  datatype Shuffles = Shuffles(slots: seq<Slot> -> seq<Slot>, items: seq<Item> -> seq<Item>)

  ghost predicate Permutes(shuffles: Shuffles) {
    && (forall s :: multiset(shuffles.slots(s)) == multiset(s))
    && forall s :: multiset(shuffles.items(s)) == multiset(s)
  }

  function Chosen(slots: seq<Slot>, override: Option<int>, requested: Option<int>, shuffles: Shuffles): seq<Slot> {
    var ready := ReadySlots(slots);
    Usable(shuffles.slots(ready), Concurrency(override, requested, |ready|))
  }

  function LaidOut(items: seq<Item>, slots: seq<Slot>, usable: seq<Slot>, shuffles: Shuffles): Layout
    requires PinsHold(ReadySlots(slots), items)
    requires usable != [] || shuffles.items(Floaters(items)) == []
  {
    var floating := shuffles.items(Floaters(items));
    Layout(Pins(items) + floating, Greedy(usable, PinnedSlots(ReadySlots(slots), items), |floating|))
  }

  // ---------------------------------------------------------------- the final order

  function OrderOf(items: seq<Item>, id: string): int {
    if items == [] then -1
    else if items[|items| - 1].id == id then |items| - 1
    else OrderOf(items[..|items| - 1], id)
  }

  predicate Sooner(items: seq<Item>, a: Assignment, b: Assignment) {
    a.wave < b.wave || (a.wave == b.wave && OrderOf(items, a.itemId) <= OrderOf(items, b.itemId))
  }

  function Inserted(items: seq<Item>, a: Assignment, plan: seq<Assignment>): seq<Assignment> {
    if plan == [] then [a]
    else if Sooner(items, plan[|plan| - 1], a) then plan + [a]
    else Inserted(items, a, plan[..|plan| - 1]) + [plan[|plan| - 1]]
  }

  function Sorted(items: seq<Item>, plan: seq<Assignment>): seq<Assignment> {
    if plan == [] then [] else Inserted(items, plan[|plan| - 1], Sorted(items, plan[..|plan| - 1]))
  }

  ghost predicate InOrder(items: seq<Item>, plan: seq<Assignment>) {
    forall i, j :: 0 <= i < j < |plan| ==> Sooner(items, plan[i], plan[j])
  }

  lemma {:induction false} InsertedHolds(items: seq<Item>, a: Assignment, plan: seq<Assignment>)
    ensures multiset(Inserted(items, a, plan)) == multiset(plan) + multiset{a}
  {
    if plan != [] {
      assert plan == plan[..|plan| - 1] + [plan[|plan| - 1]];
      if !Sooner(items, plan[|plan| - 1], a) {
        InsertedHolds(items, a, plan[..|plan| - 1]);
      }
    }
  }

  lemma {:induction false} InsertedSorts(items: seq<Item>, a: Assignment, plan: seq<Assignment>)
    requires InOrder(items, plan)
    ensures InOrder(items, Inserted(items, a, plan))
  {
    if plan != [] && !Sooner(items, plan[|plan| - 1], a) {
      var init, last := plan[..|plan| - 1], plan[|plan| - 1];
      assert forall i :: 0 <= i < |init| ==> Sooner(items, init[i], last);
      InsertedSorts(items, a, init);
      var inner := Inserted(items, a, init);
      InsertedHolds(items, a, init);
      forall i | 0 <= i < |inner|
        ensures Sooner(items, inner[i], last)
      {
        assert inner[i] in multiset(inner);
      }
    }
  }

  lemma {:induction false} SortedSorts(items: seq<Item>, plan: seq<Assignment>)
    ensures InOrder(items, Sorted(items, plan))
  {
    if plan != [] {
      SortedSorts(items, plan[..|plan| - 1]);
      InsertedSorts(items, plan[|plan| - 1], Sorted(items, plan[..|plan| - 1]));
    }
  }

  lemma {:induction false} SortedHolds(items: seq<Item>, plan: seq<Assignment>)
    ensures multiset(Sorted(items, plan)) == multiset(plan)
  {
    if plan != [] {
      var init, last := plan[..|plan| - 1], plan[|plan| - 1];
      SortedHolds(items, init);
      InsertedHolds(items, last, Sorted(items, init));
      LastOfMultiset(plan);
    }
  }

  // ---------------------------------------------------------------- the planner

  /** The loads kept in the dictionary are the counts of the placements so far. */
  ghost predicate Counts(load: map<string, nat>, ready: seq<Slot>, taken: seq<Slot>) {
    forall s :: s in ready ==> s.id in load && load[s.id] == Count(taken, s.id)
  }

  lemma CountAdds(taken: seq<Slot>, s: Slot, id: string)
    ensures Count(taken + [s], id) == Count(taken, id) + if s.id == id then 1 else 0
  {
    assert (taken + [s])[..|taken|] == taken;
  }

  method Resolve(items: seq<Item>, ready: seq<Slot>) returns (r: Result<(seq<(Item, Slot)>, seq<Item>), PlanError>)
    ensures r.Ok? <==> PinsHold(ready, items)
    ensures r.Err? ==> exists i :: 0 <= i < |items| && PinFails(ready, items[i]) && PinsHold(ready, items[..i]) && r.error == PinNotReady(items[i].id)
    ensures r.Ok? ==> r.value.1 == Floaters(items) && |r.value.0| == |Pins(items)|
    ensures r.Ok? ==> forall k :: 0 <= k < |r.value.0| ==> r.value.0[k] == (Pins(items)[k], PinnedSlots(ready, items)[k])
  {
    var pinned: seq<(Item, Slot)>, floating := [], [];
    for i := 0 to |items|
      invariant PinsHold(ready, items[..i])
      invariant floating == Floaters(items[..i]) && |pinned| == |Pins(items[..i])|
      invariant forall k :: 0 <= k < |pinned| ==> pinned[k] == (Pins(items[..i])[k], PinnedSlots(ready, items[..i])[k])
    {
      assert items[..i + 1][..i] == items[..i];
      if items[i].pin != "" {
        var slot := ByNamespace(ready, items[i].pin);
        if slot.None? {
          assert PinFails(ready, items[i]);
          return Err(PinNotReady(items[i].id));
        }
        pinned := pinned + [(items[i], slot.value)];
      } else {
        floating := floating + [items[i]];
      }
    }
    assert items[..|items|] == items;
    r := Ok((pinned, floating));
  }

  /** The unsorted plan with the dictionary that goes with it. */
  datatype Draft = Draft(assignments: seq<Assignment>, load: map<string, nat>)

  ghost predicate Drafts(draft: Draft, ready: seq<Slot>, layout: Layout) {
    && |layout.items| == |layout.taken|
    && draft.assignments == Placed(layout.items, layout.taken)
    && Counts(draft.load, ready, layout.taken)
  }

  method PlacePinned(pinned: seq<(Item, Slot)>, ready: seq<Slot>, ghost items: seq<Item>, ghost slots: seq<Slot>) returns (draft: Draft)
    requires |pinned| == |items| == |slots|
    requires forall k :: 0 <= k < |pinned| ==> pinned[k] == (items[k], slots[k]) && slots[k] in ready
    ensures Drafts(draft, ready, Layout(items, slots))
  {
    draft := Draft([], map s | s in ready :: s.id := 0);
    for k := 0 to |pinned|
      invariant Drafts(draft, ready, Layout(items[..k], slots[..k]))
    {
      var (item, slot) := pinned[k];
      draft := PlaceOne(item, slot, ready, draft, items[..k], slots[..k]);
      assert items[..k + 1] == items[..k] + [item] && slots[..k + 1] == slots[..k] + [slot];
    }
    assert items[..|items|] == items && slots[..|slots|] == slots;
  }

  method PlaceFloating(floating: seq<Item>, usable: seq<Slot>, ready: seq<Slot>, before: Draft, ghost layout: Layout)
    returns (r: Result<Draft, PlanError>)
    requires Drafts(before, ready, layout) && forall s :: s in usable ==> s in ready
    ensures r.Ok? <==> usable != [] || floating == []
    ensures r.Err? ==> r.error == NoReadySlot
    ensures r.Ok? ==> Drafts(r.value, ready, Layout(layout.items + floating, Greedy(usable, layout.taken, |floating|)))
  {
    var draft := before;
    ghost var items, taken := layout.items, layout.taken;
    for k := 0 to |floating|
      invariant k > 0 ==> usable != []
      invariant items == layout.items + floating[..k] && taken == Greedy(usable, layout.taken, k)
      invariant Drafts(draft, ready, Layout(items, taken))
    {
      if usable == [] { return Err(NoReadySlot); }
      var slot := LeastLoaded(usable, ready, draft.load, taken);
      draft := PlaceOne(floating[k], slot, ready, draft, items, taken);
      AddedItem(layout.items, floating, k);
      items, taken := items + [floating[k]], taken + [slot];
    }
    assert floating[..|floating|] == floating;
    r := Ok(draft);
  }

  lemma AddedItem(items: seq<Item>, floating: seq<Item>, k: nat)
    requires k < |floating|
    ensures items + floating[..k + 1] == items + floating[..k] + [floating[k]]
  {
  }

  /** `plan_batch`: the sorted placements of the pinned items and then, greedily, of the others. */
  method PlanBatch(items: seq<Item>, slots: seq<Slot>, override: Option<int>, requested: Option<int>, shuffles: Shuffles)
    returns (r: Result<seq<Assignment>, PlanError>)
    requires Permutes(shuffles)
    ensures r.Ok? <==> Plannable(items, slots)
    ensures r == Err(NoReadySlot) <==> PinsHold(ReadySlots(slots), items) && !Plannable(items, slots)
    ensures r.Err? && r.error != NoReadySlot ==>
              exists i :: 0 <= i < |items| && PinFails(ReadySlots(slots), items[i]) && PinsHold(ReadySlots(slots), items[..i])
                          && r.error == PinNotReady(items[i].id)
    ensures r.Ok? ==> IsPlan(r.value, items, slots, Chosen(slots, override, requested, shuffles), shuffles)
  {
    var ready := ReadySlots(slots);
    var free := shuffles.slots(ready);
    var resolved := Resolve(items, ready);
    if resolved.Err? { return Err(resolved.error); }
    var (pinned, unshuffled) := resolved.value;
    var floating := shuffles.items(unshuffled);
    SamePresence(free, ready);
    SamePresence(floating, unshuffled);
    var draft := PlacePinned(pinned, ready, Pins(items), PinnedSlots(ready, items));
    var usable := Usable(free, Concurrency(override, requested, |ready|));
    var placed := PlaceFloating(floating, usable, ready, draft, Layout(Pins(items), PinnedSlots(ready, items)));
    if placed.Err? { return Err(placed.error); }
    r := Ok(Sorted(items, placed.value.assignments));
  }

  ghost predicate Plannable(items: seq<Item>, slots: seq<Slot>) {
    PinsHold(ReadySlots(slots), items) && (ReadySlots(slots) != [] || Floaters(items) == [])
  }

  ghost predicate IsPlan(plan: seq<Assignment>, items: seq<Item>, slots: seq<Slot>, usable: seq<Slot>, shuffles: Shuffles) {
    && PinsHold(ReadySlots(slots), items)
    && (usable != [] || shuffles.items(Floaters(items)) == [])
    && var layout := LaidOut(items, slots, usable, shuffles);
       |layout.items| == |layout.taken| && plan == Sorted(items, Placed(layout.items, layout.taken))
  }

  /** One assignment: the slot's next wave, and its load goes up by one. */
  method PlaceOne(item: Item, slot: Slot, ready: seq<Slot>, draft: Draft, ghost items: seq<Item>, ghost taken: seq<Slot>)
    returns (next: Draft)
    requires slot in ready && Drafts(draft, ready, Layout(items, taken))
    ensures Drafts(next, ready, Layout(items + [item], taken + [slot]))
  {
    var wave := draft.load[slot.id];
    next := Draft(draft.assignments + [Assignment(item.id, slot.id, slot.namespace, wave)], draft.load[slot.id := wave + 1]);
    ghost var taken' := taken + [slot];
    forall s | s in ready
      ensures s.id in next.load && next.load[s.id] == Count(taken', s.id)
    {
      CountAdds(taken, slot, s.id);
    }
    assert taken'[..|taken|] == taken;
    assert forall k :: 0 <= k < |taken| ==> taken'[..k] == taken[..k];
  }

  /** The `min` over the usable slots. */
  method LeastLoaded(usable: seq<Slot>, ready: seq<Slot>, load: map<string, nat>, ghost taken: seq<Slot>) returns (slot: Slot)
    requires usable != [] && Counts(load, ready, taken) && forall s :: s in usable ==> s in ready
    ensures slot == Least(usable, taken)
  {
    slot := usable[0];
    for k := 1 to |usable|
      invariant slot in usable && slot == Least(usable[..k], taken)
    {
      assert usable[..k + 1][..k] == usable[..k];
      var next := usable[k];
      if load[next.id] < load[slot.id] || (load[next.id] == load[slot.id] && next.index < slot.index) {
        slot := next;
      }
    }
    assert usable[..|usable|] == usable;
  }

  // ---------------------------------------------------------------- what every plan is

  lemma {:induction false} CountOfPrefix(taken: seq<Slot>, i: nat, id: string)
    requires i <= |taken|
    ensures Count(taken[..i], id) <= Count(taken, id)
    ensures i < |taken| && taken[i].id == id ==> Count(taken[..i], id) < Count(taken, id)
  {
    if i < |taken| {
      var init := taken[..|taken| - 1];
      assert taken[..i] == init[..i];
      CountOfPrefix(init, i, id);
      if i == |init| {
        assert init[..i] == init;
      }
    } else {
      assert taken[..i] == taken;
    }
  }

  /** Later placements on a slot come in later waves. */
  lemma WavesRise(taken: seq<Slot>, i: nat, j: nat)
    requires i < j < |taken| && taken[i].id == taken[j].id
    ensures Count(taken[..i], taken[i].id) < Count(taken[..j], taken[j].id)
  {
    assert taken[..j][..i] == taken[..i];
    CountOfPrefix(taken[..j], i, taken[i].id);
  }

  /** Every wave below a slot's load is filled. */
  lemma {:induction false} WavesAreFilled(taken: seq<Slot>, id: string, w: nat)
    requires w < Count(taken, id)
    ensures exists k :: 0 <= k < |taken| && taken[k].id == id && Count(taken[..k], id) == w
  {
    var n := |taken| - 1;
    var init := taken[..n];
    if w < Count(init, id) {
      WavesAreFilled(init, id, w);
      var k :| 0 <= k < n && init[k].id == id && Count(init[..k], id) == w;
      assert init[..k] == taken[..k];
      assert taken[k].id == id;
    }
  }

  lemma {:induction false} PinsAndFloaters(items: seq<Item>)
    ensures multiset(Pins(items)) + multiset(Floaters(items)) == multiset(items)
    ensures forall item :: item in Pins(items) ==> item.pin != ""
    ensures forall item :: item in Floaters(items) ==> item.pin == ""
  {
    if items != [] {
      PinsAndFloaters(items[..|items| - 1]);
      LastOfMultiset(items);
    }
  }

  /** An unsorted layout of the request: its items in some order, each on a slot it may use. */
  ghost predicate Fits(layout: Layout, items: seq<Item>, ready: seq<Slot>, usable: seq<Slot>) {
    && |layout.items| == |layout.taken|
    && multiset(layout.items) == multiset(items)
    && forall k :: 0 <= k < |layout.items| ==> Suits(layout.items[k], layout.taken[k], ready, usable)
  }

  ghost predicate Suits(item: Item, slot: Slot, ready: seq<Slot>, usable: seq<Slot>) {
    && slot in ready
    && (item.pin != "" ==> slot.namespace == item.pin)
    && (item.pin == "" ==> slot in usable)
  }

  lemma LayoutFits(items: seq<Item>, slots: seq<Slot>, usable: seq<Slot>, shuffles: Shuffles)
    requires PinsHold(ReadySlots(slots), items) && Permutes(shuffles)
    requires usable != [] || shuffles.items(Floaters(items)) == []
    requires forall s :: s in usable ==> s in ReadySlots(slots)
    ensures Fits(LaidOut(items, slots, usable, shuffles), items, ReadySlots(slots), usable)
  {
    var ready, floating := ReadySlots(slots), shuffles.items(Floaters(items));
    var pins, base := Pins(items), PinnedSlots(ready, items);
    var layout := LaidOut(items, slots, usable, shuffles);
    PinsAndFloaters(items);
    SamePresence(floating, Floaters(items));
    assert multiset(layout.items) == multiset(pins) + multiset(floating);
    forall k | 0 <= k < |layout.items|
      ensures Suits(layout.items[k], layout.taken[k], ready, usable)
    {
      if k < |pins| {
        assert layout.taken[k] == layout.taken[..|base|][k] == base[k];
        assert pins[k] in pins;
      } else {
        assert floating[k - |pins|] in floating;
      }
    }
  }

  ghost predicate EveryItemOnce(plan: seq<Assignment>, items: seq<Item>) {
    && |plan| == |items|
    && (forall item :: item in items ==> exists a :: a in plan && a.itemId == item.id)
    && forall i, j :: 0 <= i < j < |plan| ==> plan[i].itemId != plan[j].itemId
  }

  ghost predicate OneItemPerSlotAndWave(plan: seq<Assignment>) {
    forall i, j :: 0 <= i < j < |plan| ==> plan[i].slotId != plan[j].slotId || plan[i].wave != plan[j].wave
  }

  ghost predicate WavesConsecutive(plan: seq<Assignment>) {
    forall a, w: nat :: a in plan && w < a.wave ==> Filled(plan, a.slotId, w)
  }

  ghost predicate Filled(plan: seq<Assignment>, slotId: string, w: nat) {
    exists b :: b in plan && b.slotId == slotId && b.wave == w
  }

  /** The assignment is of a requested item to a slot it may use. */
  ghost predicate Honours(a: Assignment, items: seq<Item>, ready: seq<Slot>, usable: seq<Slot>) {
    exists item, slot :: item in items && Suits(item, slot, ready, usable)
                         && a.itemId == item.id && a.slotId == slot.id && a.namespace == slot.namespace
  }

  lemma PlacedIsSound(layout: Layout, items: seq<Item>, ready: seq<Slot>, usable: seq<Slot>)
    requires Fits(layout, items, ready, usable) && UniqueItems(items)
    ensures var plan := Placed(layout.items, layout.taken);
            && EveryItemOnce(plan, items) && OneItemPerSlotAndWave(plan) && WavesConsecutive(plan)
            && forall a :: a in plan ==> Honours(a, items, ready, usable)
  {
    PlacedItems(layout, items);
    PlacedWaves(layout);
    PlacedHonours(layout, items, ready, usable);
  }

  lemma PlacedHonours(layout: Layout, items: seq<Item>, ready: seq<Slot>, usable: seq<Slot>)
    requires Fits(layout, items, ready, usable)
    ensures forall a :: a in Placed(layout.items, layout.taken) ==> Honours(a, items, ready, usable)
  {
    var plan := Placed(layout.items, layout.taken);
    SamePresence(layout.items, items);
    forall a | a in plan
      ensures Honours(a, items, ready, usable)
    {
      var k :| 0 <= k < |plan| && plan[k] == a;
      assert layout.items[k] in items && Suits(layout.items[k], layout.taken[k], ready, usable);
    }
  }

  lemma PlacedWaves(layout: Layout)
    requires |layout.items| == |layout.taken|
    ensures OneItemPerSlotAndWave(Placed(layout.items, layout.taken))
    ensures WavesConsecutive(Placed(layout.items, layout.taken))
  {
    var plan := Placed(layout.items, layout.taken);
    forall i, j | 0 <= i < j < |plan|
      ensures plan[i].slotId != plan[j].slotId || plan[i].wave != plan[j].wave
    {
      if plan[i].slotId == plan[j].slotId {
        WavesRise(layout.taken, i, j);
      }
    }
    forall a, w: nat | a in plan && w < a.wave
      ensures Filled(plan, a.slotId, w)
    {
      var k :| 0 <= k < |plan| && plan[k] == a;
      EarlierWave(layout, k, w);
    }
  }

  lemma EarlierWave(layout: Layout, k: nat, w: nat)
    requires |layout.items| == |layout.taken| && k < |layout.taken| && w < Count(layout.taken[..k], layout.taken[k].id)
    ensures Filled(Placed(layout.items, layout.taken), layout.taken[k].id, w)
  {
    var plan, id := Placed(layout.items, layout.taken), layout.taken[k].id;
    var m := EarlierPlacement(layout.taken, k, w);
    assert plan[m].slotId == id && plan[m].wave == w;
  }

  lemma EarlierPlacement(taken: seq<Slot>, k: nat, w: nat) returns (m: nat)
    requires k < |taken| && w < Count(taken[..k], taken[k].id)
    ensures m < k && taken[m].id == taken[k].id && Count(taken[..m], taken[m].id) == w
  {
    var before, id := taken[..k], taken[k].id;
    WavesAreFilled(before, id, w);
    m :| 0 <= m < |before| && before[m].id == id && Count(before[..m], id) == w;
    assert before[..m] == taken[..m];
  }

  lemma PlacedItems(layout: Layout, items: seq<Item>)
    requires |layout.items| == |layout.taken| && multiset(layout.items) == multiset(items) && UniqueItems(items)
    ensures EveryItemOnce(Placed(layout.items, layout.taken), items)
  {
    var plan := Placed(layout.items, layout.taken);
    SamePresence(layout.items, items);
    StillDistinct(items, layout.items);
    forall item | item in items
      ensures exists a :: a in plan && a.itemId == item.id
    {
      var k :| 0 <= k < |layout.items| && layout.items[k] == item;
      assert plan[k] in plan;
    }
    forall i, j | 0 <= i < j < |plan|
      ensures plan[i].itemId != plan[j].itemId
    {
      assert layout.items[i] in items && layout.items[j] in items;
    }
  }

  /** A reordering keeps all of it. */
  lemma ReorderedIsSound(plan: seq<Assignment>, sorted: seq<Assignment>, items: seq<Item>)
    requires multiset(sorted) == multiset(plan)
    requires EveryItemOnce(plan, items) && OneItemPerSlotAndWave(plan) && WavesConsecutive(plan)
    ensures EveryItemOnce(sorted, items) && OneItemPerSlotAndWave(sorted) && WavesConsecutive(sorted)
    ensures forall a :: a in sorted <==> a in plan
  {
    SamePresence(sorted, plan);
    StillDistinct(plan, sorted);
    forall i, j | 0 <= i < j < |sorted|
      ensures sorted[i].itemId != sorted[j].itemId
      ensures sorted[i].slotId != sorted[j].slotId || sorted[i].wave != sorted[j].wave
    {
      assert sorted[i] in plan && sorted[j] in plan && sorted[i] != sorted[j];
    }
    forall a, w: nat | a in sorted && w < a.wave
      ensures Filled(sorted, a.slotId, w)
    {
      assert Filled(plan, a.slotId, w);
    }
  }

  /** Every plan assigns each item exactly once and nothing twice to one slot and wave; each slot's
      waves run from 0 without a gap; pins are honoured and the rest stay on the usable slots; and
      the list is in wave order. */
  lemma EveryPlanIsSound(plan: seq<Assignment>, items: seq<Item>, slots: seq<Slot>, override: Option<int>,
                         requested: Option<int>, shuffles: Shuffles)
    requires Permutes(shuffles) && UniqueItems(items)
    requires IsPlan(plan, items, slots, Chosen(slots, override, requested, shuffles), shuffles)
    ensures EveryItemOnce(plan, items) && OneItemPerSlotAndWave(plan) && WavesConsecutive(plan) && InOrder(items, plan)
    ensures forall a :: a in plan ==> Honours(a, items, ReadySlots(slots), Chosen(slots, override, requested, shuffles))
  {
    var ready, usable := ReadySlots(slots), Chosen(slots, override, requested, shuffles);
    var layout := LaidOut(items, slots, usable, shuffles);
    SamePresence(shuffles.slots(ready), ready);
    LayoutFits(items, slots, usable, shuffles);
    PlacedIsSound(layout, items, ready, usable);
    var placed := Placed(layout.items, layout.taken);
    SortedHolds(items, placed);
    SortedSorts(items, placed);
    ReorderedIsSound(placed, plan, items);
  }

  // ---------------------------------------------------------------- optimality

  ghost predicate DistinctIds(usable: seq<Slot>) {
    forall i, j :: 0 <= i < j < |usable| ==> usable[i].id != usable[j].id
  }

  /** The placements on a set of slots, all together. */
  function LoadOn(usable: seq<Slot>, taken: seq<Slot>): nat {
    if usable == [] then 0 else LoadOn(usable[..|usable| - 1], taken) + Count(taken, usable[|usable| - 1].id)
  }

  lemma {:induction false} LoadAdds(usable: seq<Slot>, taken: seq<Slot>, s: Slot)
    requires DistinctIds(usable)
    ensures LoadOn(usable, taken + [s]) == LoadOn(usable, taken) + if exists u :: u in usable && u.id == s.id then 1 else 0
  {
    if usable != [] {
      var init, last := usable[..|usable| - 1], usable[|usable| - 1];
      LoadAdds(init, taken, s);
      CountAdds(taken, s, last.id);
      if last.id == s.id {
        assert last in usable;
        assert forall u :: u in init ==> u.id != s.id;
      } else if exists u :: u in usable && u.id == s.id {
        var u :| u in usable && u.id == s.id;
        assert u in init;
      }
    }
  }

  /** Any placement of the floating items on usable slots adds the same total. */
  lemma {:induction false} LoadIsConserved(usable: seq<Slot>, base: seq<Slot>, placed: seq<Slot>)
    requires DistinctIds(usable) && forall s :: s in placed ==> s in usable
    ensures LoadOn(usable, base + placed) == LoadOn(usable, base) + |placed|
  {
    if placed == [] {
      assert base + placed == base;
    } else {
      var init, last := placed[..|placed| - 1], placed[|placed| - 1];
      assert last in placed && last in usable;
      LoadIsConserved(usable, base, init);
      LoadAdds(usable, base + init, last);
      assert base + placed == base + init + [last];
    }
  }

  lemma OneMoreTime(k: nat, n: nat)
    ensures k * (n + 1) == k * n + k
  {
  }

  lemma {:induction false} LoadAtMost(usable: seq<Slot>, taken: seq<Slot>, k: nat)
    requires forall u :: u in usable ==> Count(taken, u.id) <= k
    ensures LoadOn(usable, taken) <= k * |usable|
  {
    if usable != [] {
      LoadAtMost(usable[..|usable| - 1], taken, k);
      assert usable[|usable| - 1] in usable;
      OneMoreTime(k, |usable| - 1);
    }
  }

  lemma {:induction false} LoadAtLeast(usable: seq<Slot>, taken: seq<Slot>, k: nat)
    requires forall u :: u in usable ==> Count(taken, u.id) >= k
    ensures LoadOn(usable, taken) >= k * |usable|
    ensures forall u :: u in usable && Count(taken, u.id) > k ==> LoadOn(usable, taken) > k * |usable|
  {
    if usable != [] {
      var init, last := usable[..|usable| - 1], usable[|usable| - 1];
      LoadAtLeast(init, taken, k);
      assert last in usable;
      OneMoreTime(k, |usable| - 1);
      assert forall u :: u in usable ==> u in init || u == last;
    }
  }

  /** A slot that received a floating item is at most one above every usable slot. */
  ghost predicate Level(usable: seq<Slot>, base: seq<Slot>, taken: seq<Slot>) {
    forall u, v :: u in usable && v in usable && Count(taken, u.id) > Count(base, u.id) ==> Count(taken, u.id) <= Count(taken, v.id) + 1
  }

  lemma LeastKeepsLevel(usable: seq<Slot>, base: seq<Slot>, before: seq<Slot>)
    requires usable != [] && Level(usable, base, before)
    ensures Level(usable, base, before + [Least(usable, before)])
  {
    var least := Least(usable, before);
    var after := before + [least];
    forall u, v | u in usable && v in usable && Count(after, u.id) > Count(base, u.id)
      ensures Count(after, u.id) <= Count(after, v.id) + 1
    {
      CountAdds(before, least, u.id);
      CountAdds(before, least, v.id);
      assert Count(before, least.id) <= Count(before, v.id);
    }
  }

  lemma {:induction false} GreedyIsLevel(usable: seq<Slot>, base: seq<Slot>, n: nat)
    requires usable != [] || n == 0
    ensures Level(usable, base, Greedy(usable, base, n))
  {
    if n > 0 {
      GreedyIsLevel(usable, base, n - 1);
      LeastKeepsLevel(usable, base, Greedy(usable, base, n - 1));
    }
  }

  lemma {:induction false} CountOfOthers(taken: seq<Slot>, from: nat, id: string)
    requires from <= |taken| && forall k :: from <= k < |taken| ==> taken[k].id != id
    ensures Count(taken, id) == Count(taken[..from], id)
  {
    if from < |taken| {
      var init := taken[..|taken| - 1];
      CountOfOthers(init, from, id);
      assert init[..from] == taken[..from];
    } else {
      assert taken[..from] == taken;
    }
  }

  lemma GreedyOnlyUsable(usable: seq<Slot>, base: seq<Slot>, n: nat, id: string)
    requires usable != [] || n == 0
    ensures Count(Greedy(usable, base, n), id) > Count(base, id) ==> exists u :: u in usable && u.id == id
  {
    if forall u :: u in usable ==> u.id != id {
      CountOfOthers(Greedy(usable, base, n), |base|, id);
    }
  }

  ghost predicate FitsIn(taken: seq<Slot>, waves: nat) {
    forall id :: Count(taken, id) <= waves
  }

  /** If any placement of the floating items on the usable slots fits in so many waves, so does the
      greedy one. */
  lemma GreedyIsOptimal(usable: seq<Slot>, base: seq<Slot>, other: seq<Slot>, waves: nat)
    requires DistinctIds(usable) && (usable != [] || other == [])
    requires forall s :: s in other ==> s in usable
    requires FitsIn(base + other, waves)
    ensures FitsIn(Greedy(usable, base, |other|), waves)
  {
    var greedy := Greedy(usable, base, |other|);
    BaseFits(base, other, waves);
    SameLoad(usable, base, other);
    forall id
      ensures Count(greedy, id) <= waves
    {
      if Count(greedy, id) > waves {
        GreedyOnlyUsable(usable, base, |other|, id);
        var u :| u in usable && u.id == id;
        Overfull(usable, base, other, waves, u);
      }
    }
  }

  lemma SameLoad(usable: seq<Slot>, base: seq<Slot>, other: seq<Slot>)
    requires DistinctIds(usable) && (usable != [] || other == [])
    requires forall s :: s in other ==> s in usable
    ensures LoadOn(usable, Greedy(usable, base, |other|)) == LoadOn(usable, base + other)
  {
    var greedy := Greedy(usable, base, |other|);
    var added := greedy[|base|..];
    assert greedy == base + added;
    LoadIsConserved(usable, base, added);
    LoadIsConserved(usable, base, other);
  }

  /** A greedy load above the bound would put more on the usable slots than the other placement. */
  lemma Overfull(usable: seq<Slot>, base: seq<Slot>, other: seq<Slot>, waves: nat, u: Slot)
    requires u in usable && FitsIn(base, waves) && FitsIn(base + other, waves)
    requires LoadOn(usable, Greedy(usable, base, |other|)) == LoadOn(usable, base + other)
    ensures Count(Greedy(usable, base, |other|), u.id) <= waves
  {
    var greedy := Greedy(usable, base, |other|);
    GreedyIsLevel(usable, base, |other|);
    if Count(greedy, u.id) > waves {
      assert forall v :: v in usable ==> Count(greedy, v.id) >= waves;
      LoadAtLeast(usable, greedy, waves);
      LoadAtMost(usable, base + other, waves);
    }
  }

  lemma BaseFits(base: seq<Slot>, other: seq<Slot>, waves: nat)
    requires FitsIn(base + other, waves)
    ensures FitsIn(base, waves)
  {
    forall id
      ensures Count(base, id) <= waves
    {
      assert (base + other)[..|base|] == base;
      CountOfPrefix(base + other, |base|, id);
    }
  }

  /** The fewest waves: no placement of the unpinned items on the usable slots, with the pinned ones
      where they must be, finishes in fewer waves than the plan. */
  lemma PlanUsesFewestWaves(plan: seq<Assignment>, items: seq<Item>, slots: seq<Slot>, override: Option<int>,
                            requested: Option<int>, shuffles: Shuffles, other: seq<Slot>, waves: nat)
    requires Permutes(shuffles) && UniqueSlots(slots)
    requires IsPlan(plan, items, slots, Chosen(slots, override, requested, shuffles), shuffles)
    requires |other| == |Floaters(items)|
    requires forall s :: s in other ==> s in Chosen(slots, override, requested, shuffles)
    requires FitsIn(PinnedSlots(ReadySlots(slots), items) + other, waves)
    ensures forall a :: a in plan ==> a.wave < waves
  {
    var ready, usable := ReadySlots(slots), Chosen(slots, override, requested, shuffles);
    var layout := LaidOut(items, slots, usable, shuffles);
    SamePresence(shuffles.items(Floaters(items)), Floaters(items));
    ChosenIsDistinct(slots, override, requested, shuffles);
    GreedyIsOptimal(usable, PinnedSlots(ready, items), other, waves);
    SortedHolds(items, Placed(layout.items, layout.taken));
    SamePresence(plan, Placed(layout.items, layout.taken));
    PlacedWithin(layout, waves);
  }

  lemma PlacedWithin(layout: Layout, waves: nat)
    requires |layout.items| == |layout.taken| && FitsIn(layout.taken, waves)
    ensures forall a :: a in Placed(layout.items, layout.taken) ==> a.wave < waves
  {
    var placed := Placed(layout.items, layout.taken);
    forall a | a in placed
      ensures a.wave < waves
    {
      var k :| 0 <= k < |placed| && placed[k] == a;
      CountOfPrefix(layout.taken, k, a.slotId);
    }
  }

  lemma {:induction false} ReadyIsDistinct(slots: seq<Slot>)
    requires UniqueSlots(slots)
    ensures DistinctIds(ReadySlots(slots))
  {
    if slots != [] {
      ReadyIsDistinct(slots[..|slots| - 1]);
      var init := ReadySlots(slots[..|slots| - 1]);
      assert forall i :: 0 <= i < |init| ==> init[i] in init;
    }
  }

  lemma ChosenIsDistinct(slots: seq<Slot>, override: Option<int>, requested: Option<int>, shuffles: Shuffles)
    requires Permutes(shuffles) && UniqueSlots(slots)
    ensures DistinctIds(Chosen(slots, override, requested, shuffles))
  {
    var ready := ReadySlots(slots);
    var free := shuffles.slots(ready);
    ReadyIsDistinct(slots);
    SamePresence(free, ready);
    StillDistinct(ready, free);
    forall i, j | 0 <= i < j < |free|
      ensures free[i].id != free[j].id
    {
      assert free[i] in ready && free[j] in ready;
    }
  }
}
