/** How many waiting items idle slots can take when some items must go to one namespace: the counting
    behind the dispatcher's pass, apart from its tables. */
module Capacity {
  import opened Sequences
  import Planner

  function Min(a: nat, b: nat): nat { if a <= b then a else b }

  function Sum(spaces: seq<string>, f: string -> nat): nat {
    if spaces == [] then 0 else Sum(spaces[..|spaces| - 1], f) + f(spaces[|spaces| - 1])
  }

  /** The namespaces of the slots, each once. */
  function Spaces(slots: seq<Planner.Slot>): (spaces: seq<string>)
    ensures Distinct(spaces) && forall s :: s in slots ==> s.namespace in spaces
  {
    if slots == [] then []
    else
      var before, space := Spaces(slots[..|slots| - 1]), slots[|slots| - 1].namespace;
      assert forall s :: s in slots ==> s in slots[..|slots| - 1] || s.namespace == space;
      if space in before then before else before + [space]
  }

  function IdleIn(idle: set<Planner.Slot>, space: string): set<Planner.Slot> {
    set s | s in idle && s.namespace == space
  }

  /** How many of the items bound to one namespace its idle slots can take. */
  function Fit(idle: set<Planner.Slot>, waiting: string -> nat, space: string): nat {
    if space == "" then 0 else Min(waiting(space), |IdleIn(idle, space)|)
  }

  function Fits(idle: set<Planner.Slot>, waiting: string -> nat): string -> nat {
    (space: string) => Fit(idle, waiting, space)
  }

  /** The most that can be in flight, when `waiting` says how many items wait for each namespace, and
      under the empty name how many can go anywhere. */
  function Reachable(running: nat, idle: set<Planner.Slot>, spaces: seq<string>, waiting: string -> nat): nat {
    running + Min(|idle|, waiting("") + Sum(spaces, Fits(idle, waiting)))
  }

  /** The slot's namespace has more idle slots than items bound to it. */
  predicate Spare(idle: set<Planner.Slot>, waiting: string -> nat, slot: Planner.Slot) {
    slot.namespace == "" || waiting(slot.namespace) < |IdleIn(idle, slot.namespace)|
  }

  lemma {:induction false} SumChanges(spaces: seq<string>, f: string -> nat, g: string -> nat, x: string)
    requires Distinct(spaces) && forall y :: y in spaces && y != x ==> f(y) == g(y)
    ensures Sum(spaces, g) == Sum(spaces, f) + if x in spaces then g(x) - f(x) else 0
  {
    if spaces != [] {
      var init, last := spaces[..|spaces| - 1], spaces[|spaces| - 1];
      assert spaces == init + [last];
      SumChanges(init, f, g, x);
    }
  }

  /** Every idle slot lies in one of the namespaces. */
  lemma {:induction false} IdleBySpace(idle: set<Planner.Slot>, spaces: seq<string>, f: string -> nat)
    requires Distinct(spaces) && (forall s :: s in idle ==> s.namespace in spaces)
    requires forall y :: y in spaces ==> f(y) == |IdleIn(idle, y)|
    ensures Sum(spaces, f) == |idle|
  {
    if spaces == [] {
      assert idle == {};
    } else {
      var init, last := spaces[..|spaces| - 1], spaces[|spaces| - 1];
      assert spaces == init + [last];
      var here := IdleIn(idle, last);
      forall y | y in init
        ensures IdleIn(idle - here, y) == IdleIn(idle, y)
      {
      }
      IdleBySpace(idle - here, init, f);
    }
  }

  lemma IdleInWithout(idle: set<Planner.Slot>, slot: Planner.Slot, space: string)
    requires slot in idle
    ensures |IdleIn(idle - {slot}, space)| == |IdleIn(idle, space)| - if slot.namespace == space then 1 else 0
  {
    assert IdleIn(idle - {slot}, space) == if slot.namespace == space then IdleIn(idle, space) - {slot} else IdleIn(idle, space);
  }

  /** One item fewer waits under `pin`. */
  ghost predicate OneFewer(before: string -> nat, after: string -> nat, pin: string) {
    before(pin) == after(pin) + 1 && forall p :: p != pin ==> after(p) == before(p)
  }

  lemma SameReach(running: nat, idle: set<Planner.Slot>, spaces: seq<string>, before: string -> nat, after: string -> nat)
    requires Distinct(spaces) && forall p :: before(p) == after(p)
    ensures Reachable(running, idle, spaces, after) == Reachable(running, idle, spaces, before)
  {
    SumChanges(spaces, Fits(idle, before), Fits(idle, after), "");
  }

  /** Starting an item bound to the slot's namespace changes nothing. */
  lemma ServedInPlace(running: nat, idle: set<Planner.Slot>, spaces: seq<string>, before: string -> nat, after: string -> nat,
                      slot: Planner.Slot)
    requires Distinct(spaces) && slot in idle && slot.namespace in spaces && slot.namespace != ""
    requires OneFewer(before, after, slot.namespace)
    ensures Reachable(running + 1, idle - {slot}, spaces, after) == Reachable(running, idle, spaces, before)
  {
    var f, g := Fits(idle, before), Fits(idle - {slot}, after);
    forall y | y in spaces && y != slot.namespace
      ensures f(y) == g(y)
    {
      IdleInWithout(idle, slot, y);
    }
    IdleInWithout(idle, slot, slot.namespace);
    SumChanges(spaces, f, g, slot.namespace);
  }

  /** Starting an item that could go anywhere may take a slot another item needs: never when the slot
      is spare, and without loss when none is. */
  lemma ServedAnywhere(running: nat, idle: set<Planner.Slot>, spaces: seq<string>, before: string -> nat, after: string -> nat,
                       slot: Planner.Slot)
    requires Distinct(spaces) && slot in idle && (forall s :: s in idle ==> s.namespace in spaces)
    requires OneFewer(before, after, "")
    ensures Reachable(running + 1, idle - {slot}, spaces, after) <= Reachable(running, idle, spaces, before)
    ensures Spare(idle, before, slot) || (forall s :: s in idle ==> !Spare(idle, before, s)) ==>
              Reachable(running + 1, idle - {slot}, spaces, after) == Reachable(running, idle, spaces, before)
  {
    var f, g := Fits(idle, before), Fits(idle - {slot}, after);
    forall y | y in spaces && y != slot.namespace
      ensures f(y) == g(y)
    {
      IdleInWithout(idle, slot, y);
    }
    IdleInWithout(idle, slot, slot.namespace);
    SumChanges(spaces, f, g, slot.namespace);
    if forall s :: s in idle ==> !Spare(idle, before, s) {
      NoneSpare(idle, spaces, before);
    }
  }

  lemma NoneSpare(idle: set<Planner.Slot>, spaces: seq<string>, waiting: string -> nat)
    requires Distinct(spaces) && (forall s :: s in idle ==> s.namespace in spaces && !Spare(idle, waiting, s))
    ensures Sum(spaces, Fits(idle, waiting)) == |idle|
  {
    forall y | y in spaces
      ensures Fit(idle, waiting, y) == |IdleIn(idle, y)|
    {
      if IdleIn(idle, y) != {} {
        var s :| s in IdleIn(idle, y);
      }
    }
    IdleBySpace(idle, spaces, Fits(idle, waiting));
  }

  /** An item that is not started only waits no longer; nothing is lost when no idle slot would do. */
  lemma Unserved(running: nat, idle: set<Planner.Slot>, spaces: seq<string>, before: string -> nat, after: string -> nat, pin: string)
    requires Distinct(spaces) && OneFewer(before, after, pin)
    ensures Reachable(running, idle, spaces, after) <= Reachable(running, idle, spaces, before)
    ensures (if pin == "" then idle else IdleIn(idle, pin)) == {} ==>
              Reachable(running, idle, spaces, after) == Reachable(running, idle, spaces, before)
  {
    SumChanges(spaces, Fits(idle, before), Fits(idle, after), pin);
  }
}
