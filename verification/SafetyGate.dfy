/** The disturbance safety gate: controller/disturbance.py. */
module SafetyGate {
  import opened Wrappers

  datatype Backend = Kubernetes | ChaosEffectProxy | WorkloadInterceptor | SafetyPressure | NonMutating(name: string)

  /** `findings` holds the codes of policy validation other than the one about concurrency. */
  datatype Policy = Policy(findings: seq<string>, maxConcurrentActions: int, namespaceAllowlist: set<string>)

  datatype Target = Target(namespace: string, kind: string, name: string, uid: string)

  datatype Request = Request(
    runId: string, runIdWellFormed: bool, levelId: string, disturbanceType: string, backend: Backend, target: Target,
    labelledRunId: Option<string>, hardLimitPercent: Option<real>, targetPercent: Option<real>,
    quotas: seq<Option<real>>, active: int)

  datatype Reason =
    | PolicyFinding(code: string) | UnsafeConcurrency
    | InvalidRunId | MissingLevelId | TypeNotAllowed | MissingRunIdLabel | NamespaceNotAllowed
    | TargetKindNotAllowed | MissingTargetName | MissingTargetUid
    | ConcurrencyBudgetExceeded | HardLimitExceeded | TargetExceeded | QuotaOutsideSafeRange

  predicate Mutating(backend: Backend) { !backend.NonMutating? }

  predicate Above(value: Option<real>, limit: real) { value.Some? && value.value > limit }

  predicate Unsafe(quota: Option<real>) { quota.Some? && !(20.0 <= quota.value <= 100.0) }

  /** When each objection is justified. */
  predicate Justified(policy: Policy, allowedTypes: set<string>, q: Request, reason: Reason) {
    match reason
    case PolicyFinding(code) => code in policy.findings
    case UnsafeConcurrency => policy.maxConcurrentActions != 1
    case InvalidRunId => !q.runIdWellFormed
    case MissingLevelId => q.levelId == ""
    case TypeNotAllowed => q.disturbanceType !in allowedTypes
    case MissingRunIdLabel => q.labelledRunId != Some(q.runId)
    case NamespaceNotAllowed => q.target.namespace !in policy.namespaceAllowlist
    case TargetKindNotAllowed => q.backend == Kubernetes && q.target.kind != "Pod"
    case MissingTargetName => q.backend == Kubernetes && q.target.name == ""
    case MissingTargetUid => q.backend == Kubernetes && q.target.uid == ""
    case ConcurrencyBudgetExceeded => Mutating(q.backend) && q.active >= policy.maxConcurrentActions
    case HardLimitExceeded => Above(q.hardLimitPercent, 80.0)
    case TargetExceeded => Above(q.targetPercent, 80.0)
    case QuotaOutsideSafeRange => SomeUnsafe(q.quotas)
  }

  predicate SomeUnsafe(quotas: seq<Option<real>>) {
    exists i :: 0 <= i < |quotas| && Unsafe(quotas[i])
  }

  ghost predicate Allowed(policy: Policy, allowedTypes: set<string>, q: Request) {
    forall reason :: !Justified(policy, allowedTypes, q, reason)
  }

  function AddIf(reasons: seq<Reason>, condition: bool, reason: Reason): (r: seq<Reason>)
    ensures forall x :: x in r <==> x in reasons || (condition && x == reason)
  {
    if condition then reasons + [reason] else reasons
  }

  class ControllerDisturbanceSafetyGate {
    const policy: Policy
    const allowedTypes: set<string>

    constructor (policy: Policy, allowedTypes: set<string>)
      ensures this.policy == policy && this.allowedTypes == allowedTypes
    {
      this.policy := policy;
      this.allowedTypes := allowedTypes;
    }

    method PolicyFindings() returns (reasons: seq<Reason>)
      ensures forall x :: x in reasons <==> (x.PolicyFinding? && x.code in policy.findings) || (x == UnsafeConcurrency && policy.maxConcurrentActions != 1)
    {
      reasons := [];
      for i := 0 to |policy.findings|
        invariant forall x :: x in reasons <==> x.PolicyFinding? && x.code in policy.findings[..i]
      {
        reasons := reasons + [PolicyFinding(policy.findings[i])];
      }
      assert policy.findings[..|policy.findings|] == policy.findings;
      reasons := AddIf(reasons, policy.maxConcurrentActions != 1, UnsafeConcurrency);
    }

    /** The loop over the CPU and memory quotas. */
    method AnyUnsafe(quotas: seq<Option<real>>) returns (unsafe: bool)
      ensures unsafe <==> SomeUnsafe(quotas)
    {
      unsafe := false;
      for i := 0 to |quotas|
        invariant unsafe <==> exists k :: 0 <= k < i && Unsafe(quotas[k])
      {
        unsafe := unsafe || Unsafe(quotas[i]);
      }
    }

    method IdentityReasons(q: Request) returns (r: seq<Reason>)
      ensures forall x :: x in r <==> AboutIdentity(x) && Justified(policy, allowedTypes, q, x)
    {
      r := AddIf([], !q.runIdWellFormed, InvalidRunId);
      r := AddIf(r, q.levelId == "", MissingLevelId);
      r := AddIf(r, q.disturbanceType !in allowedTypes, TypeNotAllowed);
      r := AddIf(r, q.labelledRunId != Some(q.runId), MissingRunIdLabel);
      r := AddIf(r, q.target.namespace !in policy.namespaceAllowlist, NamespaceNotAllowed);
    }

    method TargetReasons(q: Request) returns (r: seq<Reason>)
      ensures forall x :: x in r <==> AboutTarget(x) && Justified(policy, allowedTypes, q, x)
    {
      r := [];
      if q.backend == Kubernetes {
        r := AddIf(r, q.target.kind != "Pod", TargetKindNotAllowed);
        r := AddIf(r, q.target.name == "", MissingTargetName);
        r := AddIf(r, q.target.uid == "", MissingTargetUid);
      }
    }

    method LimitReasons(q: Request) returns (r: seq<Reason>)
      ensures forall x :: x in r <==> AboutLimits(x) && Justified(policy, allowedTypes, q, x)
    {
      r := AddIf([], Mutating(q.backend) && q.active >= policy.maxConcurrentActions, ConcurrencyBudgetExceeded);
      r := AddIf(r, Above(q.hardLimitPercent, 80.0), HardLimitExceeded);
      r := AddIf(r, Above(q.targetPercent, 80.0), TargetExceeded);
      var unsafe := AnyUnsafe(q.quotas);
      r := AddIf(r, unsafe, QuotaOutsideSafeRange);
    }

    /** `authorize`: allowed exactly when no objection is justified, and the reasons given are
        exactly the justified ones. */
    method Authorize(q: Request) returns (allowed: bool, reasons: seq<Reason>)
      ensures allowed <==> Allowed(policy, allowedTypes, q)
      ensures forall reason :: reason in reasons <==> Justified(policy, allowedTypes, q, reason)
    {
      var findings := PolicyFindings();
      var identity := IdentityReasons(q);
      var target := TargetReasons(q);
      var limits := LimitReasons(q);
      reasons := findings + identity + target + limits;
      allowed := reasons == [];
      NoReasonIsAllowed(policy, allowedTypes, q, reasons);
    }
  }

  predicate AboutIdentity(x: Reason) {
    x.InvalidRunId? || x.MissingLevelId? || x.TypeNotAllowed? || x.MissingRunIdLabel? || x.NamespaceNotAllowed?
  }

  predicate AboutTarget(x: Reason) {
    x.TargetKindNotAllowed? || x.MissingTargetName? || x.MissingTargetUid?
  }

  predicate AboutLimits(x: Reason) {
    x.ConcurrencyBudgetExceeded? || x.HardLimitExceeded? || x.TargetExceeded? || x.QuotaOutsideSafeRange?
  }

  lemma NoReasonIsAllowed(policy: Policy, allowedTypes: set<string>, q: Request, reasons: seq<Reason>)
    requires forall reason :: reason in reasons <==> Justified(policy, allowedTypes, q, reason)
    ensures reasons == [] <==> Allowed(policy, allowedTypes, q)
  {
    if reasons != [] {
      assert reasons[0] in reasons;
    }
  }

  /** A mutating disturbance is only ever allowed when no other one is active. */
  lemma MutationNeedsIdleTarget(policy: Policy, allowedTypes: set<string>, q: Request)
    requires Allowed(policy, allowedTypes, q) && Mutating(q.backend)
    ensures q.active < 1
  {
    assert !Justified(policy, allowedTypes, q, UnsafeConcurrency);
    assert !Justified(policy, allowedTypes, q, ConcurrencyBudgetExceeded);
  }
}
