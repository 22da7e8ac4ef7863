/** Guardrails (internal/core/domain/guardrails.go): what keeps a target from being
    switched off, and what an opt-in can waive. */
module Guardrails {
  import opened Domain

  predicate Annotated(target: Target, key: string) {
    key in target.annotations && target.annotations[key] == "true"
  }

  predicate IsExempt(target: Target, config: GuardrailConfig) {
    Annotated(target, config.exemptAnnotation)
  }

  predicate IsOptedIn(target: Target, config: GuardrailConfig) {
    Annotated(target, config.optInAnnotation)
  }

  predicate IsSystemNamespace(namespace: string, config: GuardrailConfig) {
    namespace in config.systemNamespaces || namespace in config.customBlocklist
  }

  function OwnerBlock(owner: OwnershipType): BlockReason {
    match owner
    case ArgoCD => BlockReason(ArgoCDManaged, true)
    case Flux => BlockReason(FluxManaged, true)
    case Helm => BlockReason(HelmManaged, true)
    case HPA => BlockReason(HPAControlled, true)
  }

  function OwnershipBlocks(signals: seq<OwnershipSignal>): seq<BlockReason> {
    if signals == [] then []
    else
      var last := signals[|signals| - 1];
      OwnershipBlocks(signals[..|signals| - 1]) + if last.optedIn then [] else [OwnerBlock(last.owner)]
  }

  function AllBlocks(target: Target, config: GuardrailConfig): seq<BlockReason> {
    (if IsSystemNamespace(target.ref.namespace, config) then [BlockReason(SystemNamespace, false)] else [])
    + OwnershipBlocks(target.ownership)
  }

  function NonWaivable(reasons: seq<BlockReason>): seq<BlockReason> {
    if reasons == [] then []
    else
      var last := reasons[|reasons| - 1];
      NonWaivable(reasons[..|reasons| - 1]) + if last.waivable then [] else [last]
  }

  function Blocks(target: Target, config: GuardrailConfig): seq<BlockReason> {
    if IsExempt(target, config) then []
    else if IsOptedIn(target, config) then NonWaivable(AllBlocks(target, config))
    else AllBlocks(target, config)
  }

  // ---------------------------------------------------------------- the imperative form

  method CheckOwnership(target: Target) returns (blocks: seq<BlockReason>)
    ensures blocks == OwnershipBlocks(target.ownership)
  {
    blocks := [];
    for i := 0 to |target.ownership|
      invariant blocks == OwnershipBlocks(target.ownership[..i])
    {
      var signal := target.ownership[i];
      assert target.ownership[..i + 1][..i] == target.ownership[..i];
      if !signal.optedIn {
        blocks := blocks + [OwnerBlock(signal.owner)];
      }
    }
    assert target.ownership[..|target.ownership|] == target.ownership;
  }

  method EvaluateGuardrails(target: Target, config: GuardrailConfig) returns (reasons: seq<BlockReason>)
    ensures reasons == Blocks(target, config)
  {
    if IsExempt(target, config) {
      return [];
    }
    reasons := [];
    if IsSystemNamespace(target.ref.namespace, config) {
      reasons := reasons + [BlockReason(SystemNamespace, false)];
    }
    var owned := CheckOwnership(target);
    reasons := reasons + owned;
    assert reasons == AllBlocks(target, config);
    if IsOptedIn(target, config) {
      var kept: seq<BlockReason> := [];
      for i := 0 to |reasons|
        invariant kept == NonWaivable(reasons[..i])
      {
        assert reasons[..i + 1][..i] == reasons[..i];
        if !reasons[i].waivable {
          kept := kept + [reasons[i]];
        }
      }
      assert reasons[..|reasons|] == reasons;
      return kept;
    }
  }

  // ---------------------------------------------------------------- properties

  lemma {:induction false} NonWaivableKeeps(reasons: seq<BlockReason>, r: BlockReason)
    ensures r in NonWaivable(reasons) <==> r in reasons && !r.waivable
  {
    if reasons != [] {
      var last := reasons[|reasons| - 1];
      NonWaivableKeeps(reasons[..|reasons| - 1], r);
      assert reasons == reasons[..|reasons| - 1] + [last];
    }
  }

  lemma {:induction false} OwnershipIsWaivable(signals: seq<OwnershipSignal>, r: BlockReason)
    requires r in OwnershipBlocks(signals)
    ensures r.waivable && exists s :: s in signals && !s.optedIn && r == OwnerBlock(s.owner)
  {
    var last := signals[|signals| - 1];
    if !last.optedIn && r == OwnerBlock(last.owner) {
      assert last in signals;
    } else {
      OwnershipIsWaivable(signals[..|signals| - 1], r);
      var s :| s in signals[..|signals| - 1] && !s.optedIn && r == OwnerBlock(s.owner);
      assert s in signals;
    }
  }

  /** Each owner that was not opted in objects under its own name, and nobody else does. */
  lemma {:induction false} OwnersObject(signals: seq<OwnershipSignal>)
    ensures BlockReason(ArgoCDManaged, true) in OwnershipBlocks(signals) <==> OwnershipSignal(ArgoCD, false) in signals
    ensures BlockReason(FluxManaged, true) in OwnershipBlocks(signals) <==> OwnershipSignal(Flux, false) in signals
    ensures BlockReason(HelmManaged, true) in OwnershipBlocks(signals) <==> OwnershipSignal(Helm, false) in signals
    ensures BlockReason(HPAControlled, true) in OwnershipBlocks(signals) <==> OwnershipSignal(HPA, false) in signals
  {
    if signals != [] {
      OwnersObject(signals[..|signals| - 1]);
      assert signals == signals[..|signals| - 1] + [signals[|signals| - 1]];
    }
  }

  /** An opt-in annotation removes exactly the waivable blocks, and the block of a
      protected namespace is not one of them. */
  lemma OptInWaivesOnlyWaivable(target: Target, config: GuardrailConfig, r: BlockReason)
    requires !IsExempt(target, config)
    ensures r in Blocks(target, config) <==>
              r in AllBlocks(target, config) && (IsOptedIn(target, config) ==> !r.waivable)
    ensures IsSystemNamespace(target.ref.namespace, config) <==> BlockReason(SystemNamespace, false) in Blocks(target, config)
  {
    NonWaivableKeeps(AllBlocks(target, config), r);
    var system := BlockReason(SystemNamespace, false);
    NonWaivableKeeps(AllBlocks(target, config), system);
    if system in OwnershipBlocks(target.ownership) {
      OwnershipIsWaivable(target.ownership, system);
    }
    if IsSystemNamespace(target.ref.namespace, config) {
      assert AllBlocks(target, config)[0] == system;
    }
  }
}
