/** Impact previews (internal/core/domain/preview.go): what a proposed rule would change,
    shown to be the difference of two full evaluations. */
module Preview {
  import opened Domain
  import Scopes
  import opened Guardrails
  import opened Engine
  import opened EngineLaws

  datatype BlockedTarget = BlockedTarget(ref: WorkloadRef, reasons: seq<BlockReason>)

  datatype ConflictInfo = ConflictInfo(target: WorkloadRef, winner: RuleRef, suppressed: seq<RuleRef>)

  datatype PreviewResult = PreviewResult(
    affectedOn: seq<WorkloadRef>, affectedOff: seq<WorkloadRef>, blocked: seq<BlockedTarget>,
    conflicts: seq<ConflictInfo>, totalAffected: nat)

  /** Both rule sets, the guardrails and the instant. */
  datatype Change = Change(
    policies: seq<PolicySpec>, newPolicies: seq<PolicySpec>,
    overrides: seq<OverrideSpec>, newOverrides: seq<OverrideSpec>, config: GuardrailConfig, now: int)

  datatype Impact = Untouched | TurnsOn | TurnsOff | Blocked(reasons: seq<BlockReason>)

  // ---------------------------------------------------------------- the specification

  function StateUnder(target: Target, policies: seq<PolicySpec>, overrides: seq<OverrideSpec>, config: GuardrailConfig, now: int): Option<PowerState> {
    var rules := Applicable(target, policies, overrides, now);
    if IsExempt(target, config) || rules == [] then None else Some(DesiredOf(rules))
  }

  function ImpactOn(target: Target, c: Change): Impact {
    var after := StateUnder(target, c.newPolicies, c.newOverrides, c.config, c.now);
    if after.None? then Untouched
    else if after.value.Off? && Blocks(target, c.config) != [] then Blocked(Blocks(target, c.config))
    else if StateUnder(target, c.policies, c.overrides, c.config, c.now) == after then Untouched
    else if after.value.On? then TurnsOn else TurnsOff
  }

  function OnRefs(targets: seq<Target>, c: Change): seq<WorkloadRef> {
    if targets == [] then []
    else
      var last := targets[|targets| - 1];
      OnRefs(targets[..|targets| - 1], c) + if ImpactOn(last, c).TurnsOn? then [last.ref] else []
  }

  function OffRefs(targets: seq<Target>, c: Change): seq<WorkloadRef> {
    if targets == [] then []
    else
      var last := targets[|targets| - 1];
      OffRefs(targets[..|targets| - 1], c) + if ImpactOn(last, c).TurnsOff? then [last.ref] else []
  }

  function BlockedTargets(targets: seq<Target>, c: Change): seq<BlockedTarget> {
    if targets == [] then []
    else
      var last := targets[|targets| - 1];
      BlockedTargets(targets[..|targets| - 1], c)
      + if ImpactOn(last, c).Blocked? then [BlockedTarget(last.ref, ImpactOn(last, c).reasons)] else []
  }

  predicate Contested(target: Target, c: Change) {
    !IsExempt(target, c.config) && |Applicable(target, c.newPolicies, c.newOverrides, c.now)| > 1
  }

  /** A conflict entry accounts for exactly the rules that competed for its target. */
  ghost predicate Explains(target: Target, c: Change, info: ConflictInfo) {
    && Contested(target, c) && info.target == target.ref
    && multiset([info.winner] + info.suppressed) == multiset(Refs(Applicable(target, c.newPolicies, c.newOverrides, c.now)))
  }

  ghost predicate Explained(targets: seq<Target>, c: Change, info: ConflictInfo) {
    exists t :: t in targets && Explains(t, c, info)
  }

  function ContestedRefs(targets: seq<Target>, c: Change): seq<WorkloadRef> {
    if targets == [] then []
    else
      var last := targets[|targets| - 1];
      ContestedRefs(targets[..|targets| - 1], c) + if Contested(last, c) then [last.ref] else []
  }

  function ConflictTargets(conflicts: seq<ConflictInfo>): seq<WorkloadRef> {
    seq(|conflicts|, i requires 0 <= i < |conflicts| => conflicts[i].target)
  }

  // ---------------------------------------------------------------- two evaluations decide

  /** A target turns on (off) exactly when after the change it is managed, unblocked and
      to be on (off), and before it was unmanaged or in the other state; it is listed as
      blocked exactly when it is blocked after the change. */
  lemma ImpactIsDifferenceOfDecisions(target: Target, c: Change, before: Decision, after: Decision)
    requires IsDecision(target, c.policies, c.overrides, c.config, c.now, before)
    requires IsDecision(target, c.newPolicies, c.newOverrides, c.config, c.now, after)
    ensures ImpactOn(target, c).TurnsOn? <==>
              after.IsManaged() && !after.IsBlocked() && after.desired == Some(On) && (!before.IsManaged() || before.desired == Some(Off))
    ensures ImpactOn(target, c).TurnsOff? <==>
              after.IsManaged() && !after.IsBlocked() && after.desired == Some(Off) && (!before.IsManaged() || before.desired == Some(On))
    ensures ImpactOn(target, c).Blocked? <==> after.IsBlocked()
    ensures ImpactOn(target, c).Blocked? ==> ImpactOn(target, c).reasons == after.blocks
  {
    hide Applicable, DesiredOf, Blocks;
  }

  // ---------------------------------------------------------------- the imperative form

  method ComputePreview(targets: seq<Target>, c: Change) returns (result: PreviewResult)
    ensures result.affectedOn == OnRefs(targets, c)
    ensures result.affectedOff == OffRefs(targets, c)
    ensures result.blocked == BlockedTargets(targets, c)
    ensures ConflictTargets(result.conflicts) == ContestedRefs(targets, c)
    ensures forall i :: 0 <= i < |result.conflicts| ==> Explained(targets, c, result.conflicts[i])
    ensures result.totalAffected == |result.affectedOn| + |result.affectedOff| + |result.blocked|
  {
    hide ImpactOn, Explains, Contested;
    var on: seq<WorkloadRef>, off: seq<WorkloadRef> := [], [];
    var blocked: seq<BlockedTarget> := [];
    var conflicts: seq<ConflictInfo> := [];
    for i := 0 to |targets|
      invariant on == OnRefs(targets[..i], c) && off == OffRefs(targets[..i], c)
      invariant blocked == BlockedTargets(targets[..i], c)
      invariant ConflictTargets(conflicts) == ContestedRefs(targets[..i], c)
      invariant forall k :: 0 <= k < |conflicts| ==> Explained(targets, c, conflicts[k])
    {
      var target := targets[i];
      assert targets[..i + 1][..i] == targets[..i] && targets[..i + 1][i] == target;
      var impact, conflict := Evaluate(target, c);
      match impact {
        case TurnsOn => on := on + [target.ref];
        case TurnsOff => off := off + [target.ref];
        case Blocked(reasons) => blocked := blocked + [BlockedTarget(target.ref, reasons)];
        case Untouched =>
      }
      if conflict.Some? {
        assert ConflictTargets(conflicts + [conflict.value]) == ConflictTargets(conflicts) + [target.ref];
        assert target in targets && Explained(targets, c, conflict.value);
        conflicts := conflicts + [conflict.value];
      }
    }
    assert targets[..|targets|] == targets;
    result := PreviewResult(on, off, blocked, conflicts, |on| + |off| + |blocked|);
  }

  /** The body of the preview loop for one target. */
  method Evaluate(target: Target, c: Change) returns (impact: Impact, conflict: Option<ConflictInfo>)
    ensures impact == ImpactOn(target, c)
    ensures conflict.Some? <==> Contested(target, c)
    ensures conflict.Some? ==> conflict.value.target == target.ref && Explains(target, c, conflict.value)
  {
    if IsExempt(target, c.config) {
      return Untouched, None;
    }
    var after := ComputeDecision(target, c.newPolicies, c.newOverrides, c.config, c.now);
    DecisionMeaning(target, c.newPolicies, c.newOverrides, c.config, c.now, after);
    if !after.IsManaged() {
      return Untouched, None;
    }
    var before := ComputeDecision(target, c.policies, c.overrides, c.config, c.now);
    DecisionMeaning(target, c.policies, c.overrides, c.config, c.now, before);
    ImpactIsDifferenceOfDecisions(target, c, before, after);
    if after.IsBlocked() {
      impact := Blocked(after.blocks);
    } else if before.desired != after.desired || !before.IsManaged() {
      impact := if after.desired == Some(On) then TurnsOn else TurnsOff;
    } else {
      impact := Untouched;
    }
    CompetingRules(target, c, after);
    if |after.suppressed| > 0 {
      conflict := Some(ConflictInfo(target.ref, after.winner.value, after.suppressed));
    } else {
      conflict := None;
    }
  }

  lemma CompetingRules(target: Target, c: Change, after: Decision)
    requires IsDecision(target, c.newPolicies, c.newOverrides, c.config, c.now, after) && after.IsManaged()
    ensures |after.suppressed| + 1 == |Applicable(target, c.newPolicies, c.newOverrides, c.now)|
  {
    DecisionMeaning(target, c.newPolicies, c.newOverrides, c.config, c.now, after);
    var rules := Applicable(target, c.newPolicies, c.newOverrides, c.now);
    assert |multiset([after.winner.value] + after.suppressed)| == 1 + |after.suppressed|;
    assert |multiset(Refs(rules))| == |rules|;
  }

  method PreviewPolicy(policy: PolicySpec, targets: seq<Target>, policies: seq<PolicySpec>, overrides: seq<OverrideSpec>,
                       config: GuardrailConfig, now: int) returns (result: PreviewResult)
    ensures var c := Change(policies, policies + [policy], overrides, overrides, config, now);
            && result.affectedOn == OnRefs(targets, c) && result.affectedOff == OffRefs(targets, c)
            && result.blocked == BlockedTargets(targets, c)
    ensures forall ref :: ref in result.affectedOn || ref in result.affectedOff ==>
              exists t :: t in targets && t.ref == ref && Scopes.MatchesScope(t, policy.scope)
  {
    var c := Change(policies, policies + [policy], overrides, overrides, config, now);
    result := ComputePreview(targets, c);
    forall ref | ref in result.affectedOn || ref in result.affectedOff
      ensures exists t :: t in targets && t.ref == ref && Scopes.MatchesScope(t, policy.scope)
    {
      var t := AffectedTarget(targets, c, ref);
      if !Scopes.MatchesScope(t, policy.scope) {
        OutsidePolicyScope(t, c, policy);
      }
    }
  }

  method PreviewOverride(override: OverrideSpec, targets: seq<Target>, policies: seq<PolicySpec>, overrides: seq<OverrideSpec>,
                         config: GuardrailConfig, now: int) returns (result: PreviewResult)
    ensures var c := Change(policies, policies, overrides, overrides + [override], config, now);
            && result.affectedOn == OnRefs(targets, c) && result.affectedOff == OffRefs(targets, c)
            && result.blocked == BlockedTargets(targets, c)
    ensures forall ref :: ref in result.affectedOn || ref in result.affectedOff ==>
              !override.IsExpired(now) && exists t :: t in targets && t.ref == ref && Scopes.MatchesScope(t, override.scope)
  {
    var c := Change(policies, policies, overrides, overrides + [override], config, now);
    result := ComputePreview(targets, c);
    forall ref | ref in result.affectedOn || ref in result.affectedOff
      ensures !override.IsExpired(now) && exists t :: t in targets && t.ref == ref && Scopes.MatchesScope(t, override.scope)
    {
      var t := AffectedTarget(targets, c, ref);
      if !OverrideApplies(t, override, now) {
        OutsideOverrideScope(t, c, override);
      }
    }
  }

  // ---------------------------------------------------------------- scope and partition

  lemma {:induction false} AffectedTarget(targets: seq<Target>, c: Change, ref: WorkloadRef) returns (t: Target)
    requires ref in OnRefs(targets, c) || ref in OffRefs(targets, c)
    ensures t in targets && t.ref == ref && (ImpactOn(t, c).TurnsOn? || ImpactOn(t, c).TurnsOff?)
  {
    hide ImpactOn;
    var last := targets[|targets| - 1];
    if last.ref == ref && (ImpactOn(last, c).TurnsOn? || ImpactOn(last, c).TurnsOff?) {
      t := last;
    } else {
      t := AffectedTarget(targets[..|targets| - 1], c, ref);
    }
  }

  /** A rule outside whose scope a target lies does not turn that target on or off. */
  lemma OutsidePolicyScope(target: Target, c: Change, policy: PolicySpec)
    requires !Scopes.MatchesScope(target, policy.scope)
    requires c.newPolicies == c.policies + [policy] && c.newOverrides == c.overrides
    ensures !ImpactOn(target, c).TurnsOn? && !ImpactOn(target, c).TurnsOff?
  {
    InsertedPolicyRules(target, c.policies, |c.policies|, policy, c.now);
    assert Insert(c.policies, |c.policies|, policy) == c.newPolicies;
    assert c.policies[..|c.policies|] == c.policies;
  }

  lemma OutsideOverrideScope(target: Target, c: Change, override: OverrideSpec)
    requires !OverrideApplies(target, override, c.now)
    requires c.newOverrides == c.overrides + [override] && c.newPolicies == c.policies
    ensures !ImpactOn(target, c).TurnsOn? && !ImpactOn(target, c).TurnsOff?
  {
    InsertedOverrideRules(target, c.overrides, |c.overrides|, override, c.now);
    assert Insert(c.overrides, |c.overrides|, override) == c.newOverrides;
    assert c.overrides[..|c.overrides|] == c.overrides;
  }

  function BlockedRefs(targets: seq<Target>, c: Change): seq<WorkloadRef> {
    seq(|BlockedTargets(targets, c)|, i requires 0 <= i < |BlockedTargets(targets, c)| => BlockedTargets(targets, c)[i].ref)
  }

  /** Some target of that name has this kind of impact. */
  predicate SomeTurnsOn(targets: seq<Target>, c: Change, ref: WorkloadRef) {
    exists i :: 0 <= i < |targets| && targets[i].ref == ref && ImpactOn(targets[i], c).TurnsOn?
  }

  predicate SomeTurnsOff(targets: seq<Target>, c: Change, ref: WorkloadRef) {
    exists i :: 0 <= i < |targets| && targets[i].ref == ref && ImpactOn(targets[i], c).TurnsOff?
  }

  predicate SomeBlocked(targets: seq<Target>, c: Change, ref: WorkloadRef) {
    exists i :: 0 <= i < |targets| && targets[i].ref == ref && ImpactOn(targets[i], c).Blocked?
  }

  lemma {:induction false} ListMembers(targets: seq<Target>, c: Change, ref: WorkloadRef)
    ensures ref in OnRefs(targets, c) <==> SomeTurnsOn(targets, c, ref)
    ensures ref in OffRefs(targets, c) <==> SomeTurnsOff(targets, c, ref)
    ensures ref in BlockedRefs(targets, c) <==> SomeBlocked(targets, c, ref)
  {
    if targets != [] {
      ListMembers(targets[..|targets| - 1], c, ref);
      BlockedRefsStep(targets, c);
      hide ImpactOn, BlockedRefs, BlockedTargets;
      SomeStep(targets, c, ref);
    }
  }

  lemma SomeStep(targets: seq<Target>, c: Change, ref: WorkloadRef)
    requires targets != []
    ensures var front, last := targets[..|targets| - 1], targets[|targets| - 1];
            && (SomeTurnsOn(targets, c, ref) <==> SomeTurnsOn(front, c, ref) || (last.ref == ref && ImpactOn(last, c).TurnsOn?))
            && (SomeTurnsOff(targets, c, ref) <==> SomeTurnsOff(front, c, ref) || (last.ref == ref && ImpactOn(last, c).TurnsOff?))
            && (SomeBlocked(targets, c, ref) <==> SomeBlocked(front, c, ref) || (last.ref == ref && ImpactOn(last, c).Blocked?))
  {
    hide ImpactOn;
    assert forall i :: 0 <= i < |targets| - 1 ==> targets[..|targets| - 1][i] == targets[i];
  }

  lemma BlockedRefsStep(targets: seq<Target>, c: Change)
    requires targets != []
    ensures var last := targets[|targets| - 1];
            BlockedRefs(targets, c) == BlockedRefs(targets[..|targets| - 1], c) + if ImpactOn(last, c).Blocked? then [last.ref] else []
  {
    hide ImpactOn;
  }

  predicate DistinctRefs(targets: seq<Target>) {
    forall i, j :: 0 <= i < j < |targets| ==> targets[i].ref != targets[j].ref
  }

  /** Each touched target is in the one list of its impact and in no other; an untouched one
      is in none. */
  lemma EachTargetInItsList(targets: seq<Target>, c: Change, i: nat)
    requires DistinctRefs(targets) && i < |targets|
    ensures var t := targets[i];
            && (t.ref in OnRefs(targets, c) <==> ImpactOn(t, c).TurnsOn?)
            && (t.ref in OffRefs(targets, c) <==> ImpactOn(t, c).TurnsOff?)
            && (t.ref in BlockedRefs(targets, c) <==> ImpactOn(t, c).Blocked?)
  {
    hide ImpactOn;
    var t := targets[i];
    ListMembers(targets, c, t.ref);
  }

  function TouchedCount(targets: seq<Target>, c: Change): nat {
    if targets == [] then 0
    else TouchedCount(targets[..|targets| - 1], c) + if ImpactOn(targets[|targets| - 1], c).Untouched? then 0 else 1
  }

  /** The lengths of the three lists add up to the number of touched targets, also when
      refs repeat. */
  lemma {:induction false} ListsPartitionTouched(targets: seq<Target>, c: Change)
    ensures |OnRefs(targets, c)| + |OffRefs(targets, c)| + |BlockedTargets(targets, c)| == TouchedCount(targets, c)
  {
    hide ImpactOn;
    if targets != [] {
      ListsPartitionTouched(targets[..|targets| - 1], c);
    }
  }
}
