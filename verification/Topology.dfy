/**
 Evidence graphs (internal/domain/migration/evidence.go, internal/migration/evidence_service.go):
 the nodes of a planned or observed namespace and how one planned change is recognised.
 */
module Topology {
  import opened Wrappers
  import opened Manifests

  datatype RunStatus =
    | Pending | Preflight | PreSync | Quiesce | FinalBackup | Transfer | TransformStep | Restore | Validation
    | AwaitingCutover | RollingBack | Completed | RunFailed | Cancelled

  predicate IsTerminal(status: RunStatus) { status.Completed? || status.RunFailed? || status.Cancelled? }

  datatype Status = Discovered | Planned | Created | Succeeded | Warned | Failed | Missing | Skipped

  datatype ChangeType = NamespaceChange | ApiVersionChange | StorageClassChange | IngressClassChange | ImageChange | NodeLabelChange | NfsChange

  datatype Change = Change(changeType: ChangeType, source: string, target: string, applied: Option<bool>)

  /** Absent attributes are None; merging keeps what the second side does not carry. */
  datatype Attributes = Attributes(
    images: Option<seq<string>>, nodeSelectors: Option<map<string, string>>, nfsSources: Option<seq<string>>,
    ingressClass: Option<string>, storageClass: Option<string>, labels: Option<map<string, string>>,
    replicas: Option<int>, readyReplicas: Option<int>, availableReplicas: Option<int>, phase: Option<string>)

  const NO_ATTRIBUTES := Attributes(None, None, None, None, None, None, None, None, None, None)

  datatype NodeId = NodeId(isTarget: bool, apiVersion: string, kind: Kind, namespace: string, name: string)

  /** What an expected and an observed node are matched by. */
  datatype Identity = Identity(kind: Kind, namespace: string, name: string)

  datatype GraphNode = GraphNode(id: NodeId, apiVersion: string, kind: Kind, namespace: string, name: string, required: bool, status: Status, attributes: Attributes, changes: seq<Change>)

  datatype Edge = Edge(from: NodeId, to: NodeId, relation: string, required: bool, status: Status)

  function IdentityOf(node: GraphNode): Identity { Identity(node.kind, node.namespace, node.name) }

  const DROPPED := "<dropped>"

  const STORAGE_CLASS := OtherKind("StorageClass")

  function Or<T>(value: Option<T>, otherwise: T): T { if value.Some? then value.value else otherwise }

  /** Whether the observed node shows the value the change announced. */
  predicate AppearsApplied(change: Change, actual: GraphNode) {
    match change.changeType
    case NamespaceChange => actual.namespace == change.target
    case StorageClassChange =>
      if actual.kind == STORAGE_CLASS then actual.name == change.target else Or(actual.attributes.storageClass, "") == change.target
    case IngressClassChange => Or(actual.attributes.ingressClass, "") == change.target
    case ImageChange => change.target in Or(actual.attributes.images, [])
    case NodeLabelChange =>
      var selectors := Or(actual.attributes.nodeSelectors, map[]);
      if change.target == DROPPED then change.source !in selectors else change.target in selectors
    case NfsChange => change.target in Or(actual.attributes.nfsSources, [])
    case ApiVersionChange => true
  }

  function Second<T>(first: Option<T>, second: Option<T>): Option<T> { if second.Some? then second else first }

  function MergeAttributes(first: Attributes, second: Attributes): Attributes {
    Attributes(
      Second(first.images, second.images), Second(first.nodeSelectors, second.nodeSelectors), Second(first.nfsSources, second.nfsSources),
      Second(first.ingressClass, second.ingressClass), Second(first.storageClass, second.storageClass), Second(first.labels, second.labels),
      Second(first.replicas, second.replicas), Second(first.readyReplicas, second.readyReplicas),
      Second(first.availableReplicas, second.availableReplicas), Second(first.phase, second.phase))
  }

  predicate CurrentlyHealthy(kind: Kind, attributes: Attributes) {
    match kind
    case Deployment => Or(attributes.replicas, 0) > 0 && Or(attributes.availableReplicas, 0) >= Or(attributes.replicas, 0)
    case StatefulSet => Or(attributes.replicas, 0) > 0 && Or(attributes.readyReplicas, 0) >= Or(attributes.replicas, 0)
    case DaemonSet => Or(attributes.replicas, 0) > 0 && Or(attributes.readyReplicas, 0) >= Or(attributes.replicas, 0)
    case PersistentVolumeClaim => Or(attributes.phase, "") == "Bound"
    case _ => true
  }

  const MANAGED_BY := "app.kubernetes.io/managed-by"

  const CENTER := "sks-migration-center"

  predicate IsHelper(node: GraphNode) {
    var labels := Or(node.attributes.labels, map[]);
    || (MANAGED_BY in labels && labels[MANAGED_BY] == CENTER)
    || "smc-kopia-" <= node.name || "smc-validation-" <= node.name || "smc-pvc-" <= node.name
  }

  predicate IsGenerated(node: GraphNode) {
    || node.kind == STORAGE_CLASS
    || (node.kind == OtherKind("ServiceAccount") && node.name == "default")
    || (node.kind == OtherKind("ConfigMap") && node.name == "kube-root-ca.crt")
  }
}
