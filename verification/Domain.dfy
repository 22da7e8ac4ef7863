/** The value types of the domain core (internal/core/domain/types.go): workloads,
    rules, decisions.  Times are integers and power states are `On` or `Off`. */
module Domain {

  datatype Option<+T> = None | Some(value: T)

  datatype PowerState = On | Off {
    function Opposite(): PowerState {
      if On? then Off else On
    }
  }

  datatype Kind = Deployment | StatefulSet | CronJob

  datatype WorkloadRef = WorkloadRef(
    cluster: string, apiVersion: string, namespace: string, name: string, kind: Kind, uid: string)

  /** What discovery last projected from the live workload. */
  datatype Observed = Observed(replicas: int, suspended: bool)

  function PowerStateFromObserved(obs: Observed, kind: Kind): PowerState {
    if kind.CronJob? then
      if obs.suspended then Off else On
    else
      if obs.replicas == 0 then Off else On
  }

  // ---------------------------------------------------------------- rules

  datatype TimeOfDay = TimeOfDay(hour: int, minute: int) {
    function ToMinutes(): int {
      hour * 60 + minute
    }

    predicate IsValid() {
      0 <= hour <= 23 && 0 <= minute <= 59
    }
  }

  /** `offset` is the fixed distance of the window's zone from UTC, in minutes;
      `None` stands for a zone name that does not load. */
  datatype TimeWindow = TimeWindow(start: TimeOfDay, end: TimeOfDay, days: seq<int>, offset: Option<int>) {
    predicate CrossesMidnight() {
      start.ToMinutes() > end.ToMinutes()
    }
  }

  datatype Schedule = Schedule(windows: seq<TimeWindow>, desired: PowerState)

  datatype Scope = Scope(
    targetRefs: seq<WorkloadRef>, namespaces: seq<string>, namespaceGroups: seq<string>,
    namespaceLabels: map<string, string>, workloadNames: seq<string>, workloadLabels: map<string, string>)

  datatype PolicySpec = PolicySpec(
    name: string, namespace: string, scope: Scope, schedule: Schedule,
    priority: int, description: string, createdAt: int)

  datatype OverrideSpec = OverrideSpec(
    name: string, namespace: string, scope: Scope, state: PowerState,
    priority: int, expiresAt: int, reason: string, createdAt: int) {
    predicate IsExpired(now: int) {
      now >= expiresAt
    }
  }

  datatype RuleKind = PowerPolicy | PowerOverride

  datatype RuleRef = RuleRef(
    kind: RuleKind, name: string, namespace: string, priority: int,
    specificity: int, description: string, createdAt: int)

  datatype EvaluatedRule = EvaluatedRule(ref: RuleRef, state: PowerState, specificity: int)

  // ---------------------------------------------------------------- targets and decisions

  datatype OwnershipType = ArgoCD | Flux | Helm | HPA

  datatype OwnershipSignal = OwnershipSignal(owner: OwnershipType, optedIn: bool)

  datatype Target = Target(
    ref: WorkloadRef, observed: Observed, ownership: seq<OwnershipSignal>,
    annotations: map<string, string>, labels: map<string, string>,
    namespaceLabels: map<string, string>, hasSnapshot: bool)

  datatype BlockType = SystemNamespace | ArgoCDManaged | FluxManaged | HelmManaged | HPAControlled

  datatype BlockReason = BlockReason(block: BlockType, waivable: bool)

  /** `desired` is `None` for the zero decision of an unmanaged target. */
  datatype Decision = Decision(
    desired: Option<PowerState>, winner: Option<RuleRef>, suppressed: seq<RuleRef>,
    blocks: seq<BlockReason>, divergent: bool, snapshotRequired: bool) {
    predicate IsBlocked() {
      |blocks| > 0
    }

    predicate IsManaged() {
      winner.Some?
    }
  }

  const UNMANAGED := Decision(None, None, [], [], false, false)

  datatype GuardrailConfig = GuardrailConfig(
    systemNamespaces: seq<string>, customBlocklist: seq<string>,
    optInAnnotation: string, exemptAnnotation: string)
}
