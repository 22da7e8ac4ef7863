/** Rule scopes (internal/core/domain/scope.go): empty selectors match everything, all
    others must match, and an unresolved namespace group matches nothing. */
module Scopes {
  import opened Domain

  predicate RefSelects(ref: WorkloadRef, target: WorkloadRef) {
    && ref.namespace == target.namespace && ref.name == target.name && ref.kind == target.kind
    && (ref.cluster == "" || ref.cluster == target.cluster)
    && (ref.apiVersion == "" || ref.apiVersion == target.apiVersion)
    && (ref.uid == "" || ref.uid == target.uid)
  }

  predicate LabelsMatch(labels: map<string, string>, selector: map<string, string>) {
    forall key :: key in selector ==> key in labels && labels[key] == selector[key]
  }

  predicate MatchesScope(target: Target, scope: Scope) {
    && scope.namespaceGroups == []
    && (scope.targetRefs == [] || exists i :: 0 <= i < |scope.targetRefs| && RefSelects(scope.targetRefs[i], target.ref))
    && (scope.namespaces == [] || target.ref.namespace in scope.namespaces)
    && LabelsMatch(target.namespaceLabels, scope.namespaceLabels)
    && (scope.workloadNames == [] || target.ref.name in scope.workloadNames)
    && LabelsMatch(target.labels, scope.workloadLabels)
  }

  /** 2 for a workload scope, 1 for a namespace scope, 0 for the whole cluster. */
  function ComputeSpecificity(scope: Scope): int {
    if scope.targetRefs != [] || scope.workloadNames != [] || |scope.workloadLabels| > 0 then 2
    else if scope.namespaces != [] || scope.namespaceGroups != [] || |scope.namespaceLabels| > 0 then 1
    else 0
  }

  // ---------------------------------------------------------------- what each selector does

  /** No selector selects everything. */
  lemma EmptyScopeMatchesAll(target: Target)
    ensures MatchesScope(target, Scope([], [], [], map[], [], map[]))
  {
  }

  /** A namespace list keeps, of what the scope without it selects, the targets in a listed
      namespace. */
  lemma NamespacesNarrow(target: Target, scope: Scope)
    requires scope.namespaces != []
    ensures MatchesScope(target, scope) <==>
              MatchesScope(target, scope.(namespaces := [])) && exists i :: 0 <= i < |scope.namespaces| && scope.namespaces[i] == target.ref.namespace
  {
  }

  lemma WorkloadNamesNarrow(target: Target, scope: Scope)
    requires scope.workloadNames != []
    ensures MatchesScope(target, scope) <==>
              MatchesScope(target, scope.(workloadNames := [])) && exists i :: 0 <= i < |scope.workloadNames| && scope.workloadNames[i] == target.ref.name
  {
  }

  /** A label requirement keeps the targets that carry that value, of the workload's or of the
      namespace's labels as the case may be. */
  lemma WorkloadLabelNarrows(target: Target, scope: Scope, key: string, value: string)
    requires key !in scope.workloadLabels
    ensures MatchesScope(target, scope.(workloadLabels := scope.workloadLabels[key := value])) <==>
              MatchesScope(target, scope) && key in target.labels && target.labels[key] == value
  {
    var narrowed := scope.workloadLabels[key := value];
    assert forall k :: k in narrowed <==> k in scope.workloadLabels || k == key;
    assert narrowed[key] == value;
    assert forall k :: k in scope.workloadLabels ==> narrowed[k] == scope.workloadLabels[k];
  }

  lemma NamespaceLabelNarrows(target: Target, scope: Scope, key: string, value: string)
    requires key !in scope.namespaceLabels
    ensures MatchesScope(target, scope.(namespaceLabels := scope.namespaceLabels[key := value])) <==>
              MatchesScope(target, scope) && key in target.namespaceLabels && target.namespaceLabels[key] == value
  {
    var narrowed := scope.namespaceLabels[key := value];
    assert forall k :: k in narrowed <==> k in scope.namespaceLabels || k == key;
    assert narrowed[key] == value;
    assert forall k :: k in scope.namespaceLabels ==> narrowed[k] == scope.namespaceLabels[k];
  }

  /** A list of references keeps the workloads some reference names: by namespace, name and
      kind, and by cluster, API version and UID where the reference gives them. */
  lemma TargetRefsNarrow(target: Target, scope: Scope)
    requires scope.targetRefs != []
    ensures MatchesScope(target, scope) <==>
              && MatchesScope(target, scope.(targetRefs := []))
              && exists i :: 0 <= i < |scope.targetRefs| && Names(scope.targetRefs[i], target.ref)
  {
    assert forall i :: 0 <= i < |scope.targetRefs| ==> (RefSelects(scope.targetRefs[i], target.ref) <==> Names(scope.targetRefs[i], target.ref));
  }

  /** Filling the reference's blanks from the workload gives the workload's own reference. */
  predicate Names(ref: WorkloadRef, target: WorkloadRef) {
    ref.(cluster := if ref.cluster == "" then target.cluster else ref.cluster,
         apiVersion := if ref.apiVersion == "" then target.apiVersion else ref.apiVersion,
         uid := if ref.uid == "" then target.uid else ref.uid) == target
  }

  lemma UnresolvedGroupMatchesNothing(target: Target, scope: Scope)
    requires scope.namespaceGroups != []
    ensures !MatchesScope(target, scope)
  {
  }

  /** Adding selectors never makes a scope less specific, and a workload selector makes it
      more specific than any scope without one. */
  lemma SelectorsAddSpecificity(scope: Scope, other: Scope)
    requires scope.targetRefs != [] || scope.workloadNames != [] || scope.workloadLabels != map[]
    requires other.targetRefs == [] && other.workloadNames == [] && other.workloadLabels == map[]
    ensures ComputeSpecificity(scope) > ComputeSpecificity(other)
    ensures other.namespaces != [] || other.namespaceGroups != [] || other.namespaceLabels != map[] ==>
              ComputeSpecificity(other) > ComputeSpecificity(Scope([], [], [], map[], [], map[]))
  {
    assert |scope.workloadLabels| == 0 <==> scope.workloadLabels == map[];
    assert |other.namespaceLabels| == 0 <==> other.namespaceLabels == map[];
  }
}
