/** The cluster objects a sync applies and the cleanup of a deleted Kueue instance looks for, and the
    cleanup's name filters. */
module ClusterObjects {
  import opened Strings

  // Where the operator runs; the default of pkg/namespace/namespace.go.
  const OPERATOR_NAMESPACE := "openshift-kueue-operator"

  datatype Kind =
    | MutatingWebhook | ValidatingWebhook
    | Certificate | Issuer
    | ClusterRole | ClusterRoleBinding
    | ConfigMap | Secret | ServiceAccount | Role | RoleBinding | Service
    | APIService | PriorityLevelConfiguration | FlowSchema | CRD | NetworkPolicy | ServiceMonitor
    | Other(kindName: string)

  datatype ObjKey = ObjKey(kind: Kind, ns: string, name: string)

  // Who wrote an object last: this operator, or anybody else (users, cert-manager).
  datatype Owner = Operator | Foreign

  const MANAGER_CONFIG := ObjKey(ConfigMap, OPERATOR_NAMESPACE, "kueue-manager-config")
  const WEBHOOK_SECRET := ObjKey(Secret, OPERATOR_NAMESPACE, "kueue-webhook-server-cert")
  const METRICS_SECRET := ObjKey(Secret, OPERATOR_NAMESPACE, "metrics-server-cert")

  // The cleanup visits nine groups of objects, spread over five steps.
  const GROUPS: nat := 9

  /** The cleanup step (1 to 5) that visits group g. */
  function StepOf(g: nat): nat {
    if g <= 1 then 1 else if g <= 3 then 2 else if g == 4 then 3 else if g == 5 then 4 else 5
  }

  /** The objects that group g's listing and name filter select. */
  predicate InGroup(g: nat, k: ObjKey) {
    match g
    case 0 => k.kind == MutatingWebhook && Contains(k.name, "kueue")
    case 1 => k.kind == ValidatingWebhook && Contains(k.name, "kueue")
    case 2 => k.kind == Certificate && k.ns == OPERATOR_NAMESPACE
    case 3 => k.kind == Issuer && k.ns == OPERATOR_NAMESPACE
    case 4 =>
      && k.kind == ClusterRole
      && Contains(k.name, "kueue")
      && !Contains(k.name, "kueue-operator")
      && !Contains(k.name, "openshift.io")
      && k.name !in ["kueue-batch-user-role", "kueue-batch-admin-role"]
    case 5 =>
      && k.kind == ClusterRoleBinding
      && Contains(k.name, "kueue")
      && !Contains(k.name, "kueue-operator")
    case 6 => k == MANAGER_CONFIG
    case 7 => k == WEBHOOK_SECRET
    case 8 => k == METRICS_SECRET
    case _ => false
  }

  /** The groups of step 5 name their object instead of listing. */
  function NamedTarget(g: nat): ObjKey
    requires 6 <= g < GROUPS
    ensures InGroup(g, NamedTarget(g)) && forall k :: InGroup(g, k) ==> k == NamedTarget(g)
  {
    if g == 6 then MANAGER_CONFIG else if g == 7 then WEBHOOK_SECRET else METRICS_SECRET
  }

  /** Some cleanup step would delete an object with this key. */
  ghost predicate Covered(k: ObjKey) {
    exists g: nat :: g < GROUPS && InGroup(g, k)
  }
}
