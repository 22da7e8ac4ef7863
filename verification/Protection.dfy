/** From guardrails to the workload: when a pass may switch a workload off, and that no run
    ever does so in a protected namespace. */
module Protection {
  import opened Domain
  import opened Guardrails
  import opened Engine
  import opened Cluster
  import opened ReconcileSpec
  import opened SnapshotSafety
  import opened WorkloadWrites

  /** The decision comes from some rules, annotations, ownership and time, for a target
      in this namespace. */
  ghost predicate DecidedFor(namespace: string, config: GuardrailConfig, d: Decision) {
    exists target: Target, policies: seq<PolicySpec>, overrides: seq<OverrideSpec>, now: int ::
      target.ref.namespace == namespace && IsDecision(target, policies, overrides, config, now, d)
  }

  predicate AllOptedIn(signals: seq<OwnershipSignal>) {
    forall i :: 0 <= i < |signals| ==> signals[i].optedIn
  }

  lemma {:induction false} NoOwnershipBlocks(signals: seq<OwnershipSignal>)
    ensures OwnershipBlocks(signals) == [] <==> AllOptedIn(signals)
  {
    if signals != [] {
      NoOwnershipBlocks(signals[..|signals| - 1]);
    }
  }

  lemma {:induction false} OwnershipHasNoHardBlock(signals: seq<OwnershipSignal>)
    ensures forall r :: r in OwnershipBlocks(signals) ==> r.waivable
  {
    forall r | r in OwnershipBlocks(signals)
      ensures r.waivable
    {
      OwnershipIsWaivable(signals, r);
    }
  }

  lemma UnblockedExactlyWhen(target: Target, config: GuardrailConfig)
    requires !IsExempt(target, config)
    ensures Blocks(target, config) == [] <==>
              !IsSystemNamespace(target.ref.namespace, config) && (IsOptedIn(target, config) || AllOptedIn(target.ownership))
  {
    hide NonWaivable, OwnershipBlocks, AllOptedIn, IsSystemNamespace;
    if IsSystemNamespace(target.ref.namespace, config) {
      OptInWaivesOnlyWaivable(target, config, BlockReason(SystemNamespace, false));
    } else {
      NoOwnershipBlocks(target.ownership);
      OwnershipAllWaived(target.ownership);
      assert AllBlocks(target, config) == OwnershipBlocks(target.ownership);
    }
  }

  lemma OwnershipAllWaived(signals: seq<OwnershipSignal>)
    ensures NonWaivable(OwnershipBlocks(signals)) == []
  {
    hide NonWaivable, OwnershipBlocks;
    var kept := NonWaivable(OwnershipBlocks(signals));
    OwnershipHasNoHardBlock(signals);
    if kept != [] {
      NonWaivableKeeps(OwnershipBlocks(signals), kept[0]);
    }
  }

  /** A decision lets the controller switch the workload off exactly when the target is
      not exempt, some rule applies, every applicable rule of maximal priority says off,
      the namespace is not protected, and the workload is opted in or none of its owners
      objects. */
  lemma PowerDownAllowedExactlyWhen(target: Target, policies: seq<PolicySpec>, overrides: seq<OverrideSpec>,
                                    config: GuardrailConfig, now: int, d: Decision)
    requires IsDecision(target, policies, overrides, config, now, d)
    ensures var rules := Applicable(target, policies, overrides, now);
            AuraOff in Allowed(d) <==>
              && !IsExempt(target, config) && rules != []
              && (forall i :: 0 <= i < |rules| && Top(rules, rules[i]) ==> rules[i].state.Off?)
              && !IsSystemNamespace(target.ref.namespace, config)
              && (IsOptedIn(target, config) || AllOptedIn(target.ownership))
  {
    hide Applicable, Blocks, IsSystemNamespace, AllOptedIn, Resolved, Top;
    DecisionMeaning(target, policies, overrides, config, now, d);
    if !IsExempt(target, config) {
      UnblockedExactlyWhen(target, config);
    }
  }

  lemma ProtectedIsNotSwitchedOff(namespace: string, config: GuardrailConfig, d: Decision)
    requires IsSystemNamespace(namespace, config) && DecidedFor(namespace, config, d)
    ensures AuraOff !in Allowed(d)
  {
    var target: Target, policies: seq<PolicySpec>, overrides: seq<OverrideSpec>, now: int :|
      target.ref.namespace == namespace && IsDecision(target, policies, overrides, config, now, d);
    hide Top, Applicable;
    PowerDownAllowedExactlyWhen(target, policies, overrides, config, now, d);
  }

  /** For all rules, annotations, ownership and times, whatever fails or interferes, no
      run switches off a workload in a protected namespace. */
  lemma {:induction false} ProtectedRunNeverPowersDown(namespace: string, config: GuardrailConfig, w: LiveWorld, run: seq<Step>)
    requires IsSystemNamespace(namespace, config)
    requires forall i :: 0 <= i < |run| && run[i].Pass? ==> DecidedFor(namespace, config, run[i].d)
    ensures Adds(w, After(w, run), {Outside, AuraOn})
    decreases |run|
  {
    hide DecidedFor, IsSystemNamespace, Reconcile;
    if run != [] {
      var w1 := Take(w, run[0]);
      match run[0] {
        case Pass(d, readAt, s) =>
          assert DecidedFor(namespace, config, run[0].d);
          ProtectedIsNotSwitchedOff(namespace, config, d);
          if readAt < |w.recs| {
            WritesObeyDecision(w, d, readAt, s);
          }
        case Others(steps) =>
          EnvAdds(w, steps);
      }
      ProtectedRunNeverPowersDown(namespace, config, w1, run[1..]);
      AddsChain(w, w1, After(w, run));
    }
  }

  lemma AddsChain(a: LiveWorld, b: LiveWorld, c: LiveWorld)
    requires Adds(a, b, {Outside, AuraOn}) && Adds(b, c, {Outside, AuraOn})
    ensures Adds(a, c, {Outside, AuraOn})
  {
  }
}
