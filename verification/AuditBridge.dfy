/**
 The audit bridge listener of mcp_servers/audit_bridge.py. Handler threads share one record per
 call id; the record changes only in locked sections, the Controller callback runs outside them.
 */
module AuditBridge {
  import opened Wrappers

  type CallId = string

  /** `_result_fingerprint`: equal exactly when status and payload are. */
  type Fingerprint = string

  datatype CallState = CallState(fingerprint: Option<Fingerprint>, acknowledged: bool, delivering: bool)

  type Calls = map<CallId, CallState>

  datatype Opening = Deliver | AlreadyAcknowledged | UnknownCall | ConflictingReplay | InProgress

  // ---------------------------------------------------------------- the locked sections

  function Registered(calls: Calls, id: CallId): Calls {
    calls[id := CallState(None, false, false)]
  }

  function Opened(calls: Calls, id: CallId, mark: Fingerprint): (Opening, Calls) {
    if id !in calls then (UnknownCall, calls)
    else
      var state := calls[id];
      if state.fingerprint.Some? && state.fingerprint != Some(mark) then (ConflictingReplay, calls)
      else if state.acknowledged then (AlreadyAcknowledged, calls)
      else if state.delivering then (InProgress, calls)
      else (Deliver, calls[id := state.(fingerprint := Some(mark), delivering := true)])
  }

  function Settled(calls: Calls, id: CallId, delivered: bool): Calls
    requires id in calls
  {
    calls[id := calls[id].(acknowledged := calls[id].acknowledged || delivered, delivering := false)]
  }

  class AuditBridgeListener {
    var calls: Calls

    constructor ()
      ensures calls == map[]
    {
      calls := map[];
    }

    /** An allowed before-call gets a record. */
    method Register(id: CallId)
      modifies this
      ensures calls == Registered(old(calls), id)
    {
      calls := calls[id := CallState(None, false, false)];
    }

    /** The locked checks of an after-call, before its callback. */
    method OpenDelivery(id: CallId, mark: Fingerprint) returns (opening: Opening)
      modifies this
      ensures (opening, calls) == Opened(old(calls), id, mark)
    {
      if id !in calls { return UnknownCall; }
      var state := calls[id];
      if state.fingerprint.Some? && state.fingerprint.value != mark { return ConflictingReplay; }
      if state.acknowledged { return AlreadyAcknowledged; }
      if state.delivering { return InProgress; }
      calls := calls[id := CallState(Some(mark), state.acknowledged, true)];
      opening := Deliver;
    }

    /** The locked update after the callback returned or raised. */
    method Settle(id: CallId, delivered: bool)
      requires id in calls
      modifies this
      ensures calls == Settled(old(calls), id, delivered)
    {
      var state := calls[id];
      if delivered {
        state := state.(acknowledged := true);
      }
      calls := calls[id := state.(delivering := false)];
    }
  }

  // ---------------------------------------------------------------- the protocol

  /** Where one handler thread stands between two of its atomic steps. */
  datatype Handler =
    | Deciding(id: CallId)
    | Denying(id: CallId)
    | Calling(id: CallId, mark: Fingerprint)
    | Returned(id: CallId, mark: Fingerprint, delivered: bool)

  /** What has happened, in order: callbacks that ran and answers that were sent. */
  datatype Fact =
    | Asked(id: CallId)
    | Allowed(id: CallId)
    | Denied(id: CallId)
    | DenialRecorded(id: CallId, recorded: bool)
    | Delivered(id: CallId, mark: Fingerprint, success: bool)
    | Acked(id: CallId, mark: Fingerprint)
    | Rejected(id: CallId, why: Opening)

  type Thread = nat

  datatype Bridge = Bridge(calls: Calls, handlers: map<Thread, Handler>, facts: seq<Fact>)

  const START := Bridge(map[], map[], [])

  datatype Decision = Allow | Deny | DecisionRaises

  /** The atomic steps any thread may take; a step its thread is not ready for changes nothing. */
  datatype Step =
    | ReceiveBefore(t: Thread, id: CallId)
    | Decide(t: Thread, decision: Decision)
    | RecordDenial(t: Thread, recorded: bool)
    | ReceiveAfter(t: Thread, id: CallId, mark: Fingerprint)
    | CallbackReturns(t: Thread, success: bool)
    | Finish(t: Thread)

  function Log(b: Bridge, fact: Fact): Bridge {
    b.(facts := b.facts + [fact])
  }

  function Leave(b: Bridge, t: Thread): Bridge {
    b.(handlers := b.handlers - {t})
  }

  function Take(b: Bridge, step: Step): Bridge {
    match step
    case ReceiveBefore(t, id) =>
      // uuid4 never repeats an id
      if t in b.handlers || Asked(id) in b.facts then b
      else Log(b.(handlers := b.handlers[t := Deciding(id)]), Asked(id))
    case Decide(t, decision) =>
      if t !in b.handlers || !b.handlers[t].Deciding? then b
      else
        var id := b.handlers[t].id;
        (match decision
         case Allow => Log(Leave(b.(calls := Registered(b.calls, id)), t), Allowed(id))
         case Deny => Log(b.(handlers := b.handlers[t := Denying(id)]), Denied(id))
         case DecisionRaises => Leave(b, t))
    case RecordDenial(t, recorded) =>
      if t !in b.handlers || !b.handlers[t].Denying? then b
      else Log(Leave(b, t), DenialRecorded(b.handlers[t].id, recorded))
    case ReceiveAfter(t, id, mark) =>
      if t in b.handlers then b
      else
        var (opening, calls) := Opened(b.calls, id, mark);
        if opening.Deliver? then b.(calls := calls, handlers := b.handlers[t := Calling(id, mark)])
        else if opening.AlreadyAcknowledged? then Log(b, Acked(id, mark))
        else Log(b, Rejected(id, opening))
    case CallbackReturns(t, success) =>
      if t !in b.handlers || !b.handlers[t].Calling? then b
      else
        var h := b.handlers[t];
        Log(b.(handlers := b.handlers[t := Returned(h.id, h.mark, success)]), Delivered(h.id, h.mark, success))
    case Finish(t) =>
      if t !in b.handlers || !b.handlers[t].Returned? || b.handlers[t].id !in b.calls then b
      else
        var h := b.handlers[t];
        var settled := Leave(b.(calls := Settled(b.calls, h.id, h.delivered)), t);
        if h.delivered then Log(settled, Acked(h.id, h.mark)) else settled
  }

  function TakeAll(b: Bridge, steps: seq<Step>): Bridge {
    if steps == [] then b else Take(TakeAll(b, steps[..|steps| - 1]), steps[|steps| - 1])
  }

  // ---------------------------------------------------------------- invariant

  predicate Busy(h: Handler) {
    h.Calling? || h.Returned?
  }

  /** The facts, their order forgotten. */
  function Known(facts: seq<Fact>): set<Fact> {
    if facts == [] then {} else Known(facts[..|facts| - 1]) + {facts[|facts| - 1]}
  }

  lemma KnownOfAppend(facts: seq<Fact>, fact: Fact)
    ensures Known(facts + [fact]) == Known(facts) + {fact}
  {
    assert (facts + [fact])[..|facts|] == facts;
  }

  lemma {:induction false} KnownMeansListed(facts: seq<Fact>, fact: Fact)
    ensures fact in Known(facts) <==> fact in facts
    decreases |facts|
  {
    if facts != [] {
      var front := facts[..|facts| - 1];
      KnownMeansListed(front, fact);
      assert facts == front + [facts[|facts| - 1]];
    }
  }

  /** The threads agree with the shared records: one thread per id, and its fingerprint is the fixed one. */
  ghost predicate ThreadsFit(b: Bridge) {
    && (forall t, u :: t in b.handlers && u in b.handlers && t != u ==>
          b.handlers[t].id != b.handlers[u].id)
    && (forall t :: t in b.handlers && Busy(b.handlers[t]) ==>
          var h := b.handlers[t];
          && h.id in b.calls && b.calls[h.id].delivering && !b.calls[h.id].acknowledged
          && b.calls[h.id].fingerprint == Some(h.mark))
    && (forall t :: t in b.handlers && !Busy(b.handlers[t]) ==>
          Asked(b.handlers[t].id) in Known(b.facts) && b.handlers[t].id !in b.calls)
    && (forall t :: t in b.handlers && b.handlers[t].Deciding? ==> Denied(b.handlers[t].id) !in Known(b.facts))
    && (forall t :: t in b.handlers && b.handlers[t].Returned? ==>
          Delivered(b.handlers[t].id, b.handlers[t].mark, b.handlers[t].delivered) in Known(b.facts))
  }

  /** The records agree with what has happened. */
  ghost predicate RecordsFit(b: Bridge) {
    && (forall id :: id in b.calls ==> Asked(id) in Known(b.facts) && Denied(id) !in Known(b.facts))
    && (forall id :: Allowed(id) in Known(b.facts) ==> id in b.calls)
    && (forall id :: Denied(id) in Known(b.facts) ==> Asked(id) in Known(b.facts))
    && (forall id, mark, ok :: Delivered(id, mark, ok) in Known(b.facts) ==>
          id in b.calls && b.calls[id].fingerprint == Some(mark))
    && (forall id :: id in b.calls && b.calls[id].acknowledged ==>
          b.calls[id].fingerprint.Some? && Delivered(id, b.calls[id].fingerprint.value, true) in Known(b.facts))
  }

  ghost predicate NoSuccess(b: Bridge, id: CallId) {
    forall mark :: Delivered(id, mark, true) !in Known(b.facts)
  }

  /** A delivery is open only while no earlier one succeeded. */
  ghost predicate SuccessesFit(b: Bridge) {
    && (forall id :: id in b.calls && !b.calls[id].acknowledged && !b.calls[id].delivering ==> NoSuccess(b, id))
    && (forall t :: t in b.handlers && (b.handlers[t].Calling? || (b.handlers[t].Returned? && !b.handlers[t].delivered)) ==>
          NoSuccess(b, b.handlers[t].id))
  }

  predicate Success(fact: Fact) {
    fact.Delivered? && fact.success
  }

  ghost predicate OneSuccess(facts: seq<Fact>) {
    forall i, j :: 0 <= i < j < |facts| && Success(facts[i]) && Success(facts[j]) ==> facts[i].id != facts[j].id
  }

  ghost predicate OneFingerprint(facts: seq<Fact>) {
    forall i, j :: 0 <= i < j < |facts| && facts[i].Delivered? && facts[j].Delivered? && facts[i].id == facts[j].id ==>
      facts[i].mark == facts[j].mark
  }

  /** An acknowledgement is sent only after the callback succeeded for that very result. */
  ghost predicate AckedAfterSuccess(facts: seq<Fact>) {
    forall j :: 0 <= j < |facts| && facts[j].Acked? ==> Delivered(facts[j].id, facts[j].mark, true) in facts[..j]
  }

  predicate Grants(fact: Fact) {
    fact.Delivered? || fact.Acked? || fact.Allowed?
  }

  ghost predicate DenialIsFinal(facts: seq<Fact>) {
    forall i, j :: 0 <= i < |facts| && 0 <= j < |facts| && facts[i].Denied? && Grants(facts[j]) ==>
      facts[i].id != facts[j].id
  }

  ghost predicate Invariant(b: Bridge) {
    ThreadsFit(b) && RecordsFit(b) && SuccessesFit(b)
  }

  // ---------------------------------------------------------------- every step keeps it

  lemma NoteKeepsInvariant(b: Bridge, fact: Fact)
    requires Invariant(b) && ((fact.Allowed? && fact.id in b.calls) || fact.Acked? || fact.Rejected? || fact.DenialRecorded?)
    ensures Invariant(Log(b, fact))
  {
    KnownOfAppend(b.facts, fact);
  }

  lemma AskKeepsInvariant(b: Bridge, t: Thread, id: CallId)
    requires Invariant(b) && t !in b.handlers && Asked(id) !in b.facts
    ensures Invariant(Take(b, ReceiveBefore(t, id)))
  {
    KnownMeansListed(b.facts, Asked(id));
    KnownOfAppend(b.facts, Asked(id));
  }

  lemma AllowKeepsInvariant(b: Bridge, t: Thread)
    requires Invariant(b) && t in b.handlers && b.handlers[t].Deciding?
    ensures Invariant(Leave(b.(calls := Registered(b.calls, b.handlers[t].id)), t))
  {
  }

  lemma LeavingKeepsInvariant(b: Bridge, t: Thread)
    requires Invariant(b) && t in b.handlers && !Busy(b.handlers[t])
    ensures Invariant(Leave(b, t))
  {
  }

  lemma DenialKeepsThreads(b: Bridge, t: Thread)
    requires Invariant(b) && t in b.handlers && b.handlers[t].Deciding?
    ensures ThreadsFit(Take(b, Decide(t, Deny)))
  {
    KnownOfAppend(b.facts, Denied(b.handlers[t].id));
  }

  lemma DenialKeepsRecords(b: Bridge, t: Thread)
    requires Invariant(b) && t in b.handlers && b.handlers[t].Deciding?
    ensures RecordsFit(Take(b, Decide(t, Deny))) && SuccessesFit(Take(b, Decide(t, Deny)))
  {
    KnownOfAppend(b.facts, Denied(b.handlers[t].id));
  }

  lemma DenialKeepsInvariant(b: Bridge, t: Thread)
    requires Invariant(b) && t in b.handlers && b.handlers[t].Deciding?
    ensures Invariant(Take(b, Decide(t, Deny)))
  {
    DenialKeepsThreads(b, t);
    DenialKeepsRecords(b, t);
  }

  /** The bridge once a delivery has been opened. */
  function UnderWay(b: Bridge, t: Thread, id: CallId, mark: Fingerprint): Bridge {
    b.(calls := Opened(b.calls, id, mark).1, handlers := b.handlers[t := Calling(id, mark)])
  }

  lemma OpeningKeepsThreads(b: Bridge, t: Thread, id: CallId, mark: Fingerprint)
    requires ThreadsFit(b) && RecordsFit(b) && t !in b.handlers && Opened(b.calls, id, mark).0.Deliver?
    ensures ThreadsFit(UnderWay(b, t, id, mark))
  {
  }

  lemma OpeningKeepsRecords(b: Bridge, t: Thread, id: CallId, mark: Fingerprint)
    requires RecordsFit(b) && Opened(b.calls, id, mark).0.Deliver?
    ensures RecordsFit(UnderWay(b, t, id, mark))
  {
  }

  lemma OpeningKeepsSuccesses(b: Bridge, t: Thread, id: CallId, mark: Fingerprint)
    requires SuccessesFit(b) && Opened(b.calls, id, mark).0.Deliver?
    ensures SuccessesFit(UnderWay(b, t, id, mark))
  {
    assert NoSuccess(b, id);
    assert forall other :: NoSuccess(b, other) ==> NoSuccess(UnderWay(b, t, id, mark), other);
  }

  lemma OpeningKeepsInvariant(b: Bridge, t: Thread, id: CallId, mark: Fingerprint)
    requires Invariant(b) && t !in b.handlers && Opened(b.calls, id, mark).0.Deliver?
    ensures Invariant(UnderWay(b, t, id, mark))
  {
    OpeningKeepsThreads(b, t, id, mark);
    OpeningKeepsRecords(b, t, id, mark);
    OpeningKeepsSuccesses(b, t, id, mark);
  }

  lemma ReturnKeepsThreads(b: Bridge, t: Thread, success: bool)
    requires ThreadsFit(b) && t in b.handlers && b.handlers[t].Calling?
    ensures ThreadsFit(Take(b, CallbackReturns(t, success)))
  {
    KnownOfAppend(b.facts, Delivered(b.handlers[t].id, b.handlers[t].mark, success));
  }

  lemma ReturnKeepsRecords(b: Bridge, t: Thread, success: bool)
    requires ThreadsFit(b) && RecordsFit(b) && t in b.handlers && b.handlers[t].Calling?
    ensures RecordsFit(Take(b, CallbackReturns(t, success)))
  {
    KnownOfAppend(b.facts, Delivered(b.handlers[t].id, b.handlers[t].mark, success));
  }

  lemma ReturnKeepsSuccesses(b: Bridge, t: Thread, success: bool)
    requires ThreadsFit(b) && SuccessesFit(b) && t in b.handlers && b.handlers[t].Calling?
    ensures SuccessesFit(Take(b, CallbackReturns(t, success)))
  {
    KnownOfAppend(b.facts, Delivered(b.handlers[t].id, b.handlers[t].mark, success));
  }

  lemma ReturnKeepsInvariant(b: Bridge, t: Thread, success: bool)
    requires Invariant(b) && t in b.handlers && b.handlers[t].Calling?
    ensures Invariant(Take(b, CallbackReturns(t, success)))
  {
    ReturnKeepsThreads(b, t, success);
    ReturnKeepsRecords(b, t, success);
    ReturnKeepsSuccesses(b, t, success);
  }

  lemma SettlingKeepsInvariant(b: Bridge, t: Thread)
    requires Invariant(b) && t in b.handlers && b.handlers[t].Returned? && b.handlers[t].id in b.calls
    ensures var h := b.handlers[t]; Invariant(Leave(b.(calls := Settled(b.calls, h.id, h.delivered)), t))
  {
  }

  lemma DecideKeepsInvariant(b: Bridge, t: Thread, decision: Decision)
    requires Invariant(b)
    ensures Invariant(Take(b, Decide(t, decision)))
  {
    if t in b.handlers && b.handlers[t].Deciding? {
      match decision
      case Allow =>
        AllowKeepsInvariant(b, t);
        NoteKeepsInvariant(Leave(b.(calls := Registered(b.calls, b.handlers[t].id)), t), Allowed(b.handlers[t].id));
      case Deny => DenialKeepsInvariant(b, t);
      case DecisionRaises => LeavingKeepsInvariant(b, t);
    }
  }

  lemma RecordKeepsInvariant(b: Bridge, t: Thread, recorded: bool)
    requires Invariant(b)
    ensures Invariant(Take(b, RecordDenial(t, recorded)))
  {
    if t in b.handlers && b.handlers[t].Denying? {
      LeavingKeepsInvariant(b, t);
      NoteKeepsInvariant(Leave(b, t), DenialRecorded(b.handlers[t].id, recorded));
    }
  }

  lemma ReceiptKeepsInvariant(b: Bridge, t: Thread, id: CallId, mark: Fingerprint)
    requires Invariant(b)
    ensures Invariant(Take(b, ReceiveAfter(t, id, mark)))
  {
    if t !in b.handlers {
      var opening := Opened(b.calls, id, mark).0;
      if opening.Deliver? {
        OpeningKeepsInvariant(b, t, id, mark);
      } else {
        NoteKeepsInvariant(b, Acked(id, mark));
        NoteKeepsInvariant(b, Rejected(id, opening));
      }
    }
  }

  lemma FinishKeepsInvariant(b: Bridge, t: Thread)
    requires Invariant(b)
    ensures Invariant(Take(b, Finish(t)))
  {
    if t in b.handlers && b.handlers[t].Returned? && b.handlers[t].id in b.calls {
      var h := b.handlers[t];
      SettlingKeepsInvariant(b, t);
      NoteKeepsInvariant(Leave(b.(calls := Settled(b.calls, h.id, h.delivered)), t), Acked(h.id, h.mark));
    }
  }

  lemma StepKeepsInvariant(b: Bridge, step: Step)
    requires Invariant(b)
    ensures Invariant(Take(b, step))
  {
    match step
    case ReceiveBefore(t, id) =>
      if Take(b, step) != b { AskKeepsInvariant(b, t, id); }
    case Decide(t, decision) => DecideKeepsInvariant(b, t, decision);
    case RecordDenial(t, recorded) => RecordKeepsInvariant(b, t, recorded);
    case ReceiveAfter(t, id, mark) => ReceiptKeepsInvariant(b, t, id, mark);
    case CallbackReturns(t, success) =>
      if Take(b, step) != b { ReturnKeepsInvariant(b, t, success); }
    case Finish(t) => FinishKeepsInvariant(b, t);
  }

  // ---------------------------------------------------------------- what every interleaving keeps

  ghost predicate FactsFit(facts: seq<Fact>) {
    OneSuccess(facts) && OneFingerprint(facts) && AckedAfterSuccess(facts) && DenialIsFinal(facts)
  }

  /** What a new fact must respect of the earlier ones. */
  ghost predicate Follows(known: set<Fact>, fact: Fact) {
    && (Success(fact) ==> forall f :: f in known && Success(f) ==> f.id != fact.id)
    && (fact.Delivered? ==> forall f :: f in known && f.Delivered? && f.id == fact.id ==> f.mark == fact.mark)
    && (fact.Acked? ==> Delivered(fact.id, fact.mark, true) in known)
    && (fact.Denied? ==> forall f :: f in known && Grants(f) ==> f.id != fact.id)
    && (Grants(fact) ==> Denied(fact.id) !in known)
  }

  lemma FollowingFactFits(facts: seq<Fact>, fact: Fact)
    requires FactsFit(facts) && Follows(Known(facts), fact)
    ensures FactsFit(facts + [fact])
  {
    var longer := facts + [fact];
    forall i | 0 <= i < |facts| ensures longer[i] == facts[i] && facts[i] in Known(facts) {
      KnownMeansListed(facts, facts[i]);
    }
    if fact.Acked? {
      KnownMeansListed(facts, Delivered(fact.id, fact.mark, true));
    }
    assert AckedAfterSuccess(longer) by {
      assert forall j :: 0 <= j <= |facts| ==> longer[..j] == facts[..j];
    }
    assert DenialIsFinal(longer) by {
      if Grants(fact) { KnownMeansListed(facts, Denied(fact.id)); }
    }
  }

  /** Nothing acknowledged was ever denied: an acknowledged result was delivered. */
  lemma AckedWasDelivered(facts: seq<Fact>, f: Fact)
    requires AckedAfterSuccess(facts) && f in Known(facts) && f.Acked?
    ensures Delivered(f.id, f.mark, true) in Known(facts)
  {
    KnownMeansListed(facts, f);
    var j :| 0 <= j < |facts| && facts[j] == f;
    assert Delivered(f.id, f.mark, true) in facts[..j];
    KnownMeansListed(facts, Delivered(f.id, f.mark, true));
  }

  lemma DenialFollows(b: Bridge, t: Thread)
    requires Invariant(b) && FactsFit(b.facts) && t in b.handlers && b.handlers[t].Deciding?
    ensures Follows(Known(b.facts), Denied(b.handlers[t].id))
  {
    forall f | f in Known(b.facts) && Grants(f) ensures f.id != b.handlers[t].id {
      if f.Acked? { AckedWasDelivered(b.facts, f); }
    }
  }

  lemma NewFactFollows(b: Bridge, step: Step) returns (fact: Fact)
    requires Invariant(b) && FactsFit(b.facts) && Take(b, step).facts != b.facts
    ensures Take(b, step).facts == b.facts + [fact] && Follows(Known(b.facts), fact)
  {
    match step
    case ReceiveBefore(t, id) => fact := Asked(id);
    case Decide(t, decision) =>
      fact := if decision == Allow then Allowed(b.handlers[t].id) else Denied(b.handlers[t].id);
      DenialFollows(b, t);
    case RecordDenial(t, recorded) => fact := DenialRecorded(b.handlers[t].id, recorded);
    case ReceiveAfter(t, id, mark) =>
      var opening := Opened(b.calls, id, mark).0;
      fact := if opening.AlreadyAcknowledged? then Acked(id, mark) else Rejected(id, opening);
    case CallbackReturns(t, success) => fact := Delivered(b.handlers[t].id, b.handlers[t].mark, success);
    case Finish(t) => fact := Acked(b.handlers[t].id, b.handlers[t].mark);
  }

  lemma {:induction false} BridgeInvariant(steps: seq<Step>)
    ensures Invariant(TakeAll(START, steps)) && FactsFit(TakeAll(START, steps).facts)
    decreases |steps|
  {
    if steps != [] {
      var front, last := steps[..|steps| - 1], steps[|steps| - 1];
      BridgeInvariant(front);
      var b := TakeAll(START, front);
      StepKeepsInvariant(b, last);
      if Take(b, last).facts != b.facts {
        var fact := NewFactFollows(b, last);
        FollowingFactFits(b.facts, fact);
      }
    }
  }

  /**
   Exactly-once result delivery, in every interleaving of any number of handler threads, retries
   and callback failures: a call id has at most one successful result callback, all callbacks for
   it carry one fingerprint, an acknowledgement is sent only after the callback succeeded for that
   result, and a denied call gains no result, acknowledgement or permission before or after, whether or
   not its denial could be recorded.
   */
  lemma ExactlyOnceDelivery(steps: seq<Step>, i: nat, j: nat)
    requires i < |TakeAll(START, steps).facts| && j < |TakeAll(START, steps).facts|
    ensures var facts := TakeAll(START, steps).facts;
            && (i != j && Success(facts[i]) && Success(facts[j]) ==> facts[i].id != facts[j].id)
            && (facts[i].Delivered? && facts[j].Delivered? && facts[i].id == facts[j].id ==> facts[i].mark == facts[j].mark)
            && (facts[j].Acked? ==> exists k :: 0 <= k < j && facts[k] == Delivered(facts[j].id, facts[j].mark, true))
            && (facts[i].Denied? && Grants(facts[j]) ==> facts[i].id != facts[j].id)
  {
    BridgeInvariant(steps);
    var facts := TakeAll(START, steps).facts;
    if facts[j].Acked? {
      var k :| 0 <= k < j && facts[..j][k] == Delivered(facts[j].id, facts[j].mark, true);
      assert facts[k] == facts[..j][k];
    }
  }

  /** A failed callback leaves the call open to the same result, and closed to any other. */
  lemma FailureAllowsOnlyTheSameResult(steps: seq<Step>, t: Thread, other: Fingerprint)
    requires var b := TakeAll(START, steps);
             t in b.handlers && b.handlers[t].Returned? && !b.handlers[t].delivered && other != b.handlers[t].mark
    ensures var b := TakeAll(START, steps);
            var (id, mark, calls) := (b.handlers[t].id, b.handlers[t].mark, Take(b, Finish(t)).calls);
            Opened(calls, id, mark).0 == Deliver && Opened(calls, id, other).0 == ConflictingReplay
  {
    BridgeInvariant(steps);
  }

  lemma StepKeepsFingerprint(b: Bridge, step: Step, id: CallId)
    requires Invariant(b) && id in b.calls && b.calls[id].fingerprint.Some?
    ensures id in Take(b, step).calls && Take(b, step).calls[id].fingerprint == b.calls[id].fingerprint
  {
  }

  /** Once a call has a fingerprint no step of any thread changes it. */
  lemma {:induction false} FingerprintIsFixed(b: Bridge, steps: seq<Step>, id: CallId)
    requires Invariant(b) && id in b.calls && b.calls[id].fingerprint.Some?
    ensures Invariant(TakeAll(b, steps))
    ensures id in TakeAll(b, steps).calls && TakeAll(b, steps).calls[id].fingerprint == b.calls[id].fingerprint
    decreases |steps|
  {
    if steps != [] {
      var front, last := steps[..|steps| - 1], steps[|steps| - 1];
      FingerprintIsFixed(b, front, id);
      StepKeepsInvariant(TakeAll(b, front), last);
      StepKeepsFingerprint(TakeAll(b, front), last, id);
    }
  }
}
