/** One sync from the finalizer on, as the ordered list of what it does to the cluster. Every call it makes may
    fail: the n-th call gets the n-th of an arbitrary list of answers. */
module SyncTrace {
  import opened ClusterObjects
  import opened Fingerprint
  import opened Strings
  import M = MetadataMerge
  import R = ManagerRole

  const SYSTEM_NS := "kube-system"
  const CLEANUP_STEPS: nat := 5

  datatype ServingCert = WebhookCert | MetricsCert | VisibilityCert

  function CertName(cert: ServingCert): string {
    match cert
    case WebhookCert => "webhook-cert"
    case MetricsCert => "metrics-certs"
    case VisibilityCert => "kueue-visibility-server-cert"
  }

  /** The place of a certificate's wait among the three. */
  function WaitOf(cert: ServingCert): nat {
    match cert
    case WebhookCert => 0
    case MetricsCert => 1
    case VisibilityCert => 2
  }

  datatype Effect =
    | FinalizerAdded
    | Cleaned(step: nat)
    | FinalizerRemoved
    | StatusUpdated
    | Applied(obj: Object)
    | Ready(cert: ServingCert)
    | DeploymentApplied(annotations: M.StringMap)

  /** `wrote` says the call changed the cluster, which a failed call may have done too; `content` is the hashed
      part of the object the server returned, and `finalizer` whether a CR it returned carries the finalizer. */
  datatype Answer = Answer(ok: bool, wrote: bool, content: string, hashable: bool, finalizer: bool)

  datatype Outcome = Proceed | Return(failed: bool) {
    predicate IsFailure() {
      Return?
    }

    function PropagateFailure(): Outcome {
      this
    }
  }

  /** How the cluster's TLS profile resolves. */
  datatype Tls = Resolved | Unreadable | Unsupported

  /** The embedded assets that are applied directory by directory. */
  datatype Assets = Assets(crds: seq<R.Crd>, networkPolicies: seq<string>, clusterRoles: seq<R.ClusterRole>)

  // ---- What a trace may look like ----

  /** Allowed before the certificates are ready. */
  predicate Early(e: Effect) {
    match e
    case Applied(o) => EarlyItem(o.item)
    case DeploymentApplied(_) => false
    case _ => true
  }

  ghost predicate AllReady(t: seq<Effect>) {
    forall c: ServingCert :: Ready(c) in t
  }

  /** Nothing but early effects happens before all three certificates are ready. */
  ghost predicate Guarded(t: seq<Effect>) {
    forall i :: 0 <= i < |t| && !Early(t[i]) ==> AllReady(t[..i])
  }

  predicate Applies(e: Effect) {
    e.Applied? || e.DeploymentApplied?
  }

  function Objects(t: seq<Effect>): seq<Object> {
    if t == [] then []
    else
      var e := t[|t| - 1];
      Objects(t[..|t| - 1]) + if e.Applied? then [e.obj] else []
  }

  function Items(objs: seq<Object>): seq<Item> {
    seq(|objs|, i requires 0 <= i < |objs| => objs[i].item)
  }

  /** The trace went on, without adding the finalizer. */
  ghost predicate Extends(t: seq<Effect>, u: seq<Effect>) {
    t <= u && (FinalizerAdded in u ==> FinalizerAdded in t)
  }

  /** The trace went on with applied objects only. */
  ghost predicate Grows(t: seq<Effect>, u: seq<Effect>) {
    t <= u && forall e :: e in u ==> e in t || e.Applied?
  }

  lemma ExtendsOn(t: seq<Effect>, u: seq<Effect>, v: seq<Effect>)
    requires Extends(t, u) && Extends(u, v)
    ensures Extends(t, v)
  {
  }

  lemma TraceStep(t: seq<Effect>, e: Effect)
    requires Guarded(t) && (Early(e) || AllReady(t))
    ensures Guarded(t + [e])
    ensures AllReady(t) ==> AllReady(t + [e])
    ensures Objects(t + [e]) == if e.Applied? then Objects(t) + [e.obj] else Objects(t)
  {
    var u := t + [e];
    assert u[..|t|] == t;
    forall i | 0 <= i < |u| && !Early(u[i]) ensures AllReady(u[..i]) {
      if i < |t| {
        assert u[..i] == t[..i];
      }
    }
  }

  /** The reconciler is applying objects: no clean-up, no finalizer removal and no Deployment so far. */
  ghost predicate Rolling(t: seq<Effect>) {
    Guarded(t) && forall e :: e in t ==> !e.Cleaned? && !e.FinalizerRemoved? && !e.DeploymentApplied?
  }

  /** Kubernetes names end in a letter or digit. */
  predicate PlainName(name: string) {
    !HasSuffix(name, "-")
  }

  ghost predicate PlainNames(objs: seq<Object>) {
    forall o :: o in objs ==> PlainName(o.item.name)
  }

  /** Applied while the certificates may not be ready. */
  predicate EarlyItem(item: Item) {
    item.kind == Issuer || item.kind == Certificate
  }

  // ---- What is applied, in order ----

  function CertificateItems(): seq<Item> {
    [ItemOf(Issuer, OPERATOR_NAMESPACE, "selfsigned"), CertificateItem(WebhookCert), CertificateItem(MetricsCert),
     CertificateItem(VisibilityCert)]
  }

  function CertificateItem(c: ServingCert): Item {
    ItemOf(Certificate, OPERATOR_NAMESPACE, CertName(c))
  }

  function CoreItems(): seq<Item> {
    [ItemOf(ConfigMap, OPERATOR_NAMESPACE, "kueue-manager-config"),
     ItemOf(ServiceAccount, OPERATOR_NAMESPACE, "kueue-controller-manager"),
     ItemOf(Role, OPERATOR_NAMESPACE, "kueue-leader-election-role"),
     ItemOf(RoleBinding, OPERATOR_NAMESPACE, "kueue-leader-election-rolebinding"),
     ItemOf(Role, OPERATOR_NAMESPACE, "kueue-manager-secrets-role"),
     ItemOf(RoleBinding, OPERATOR_NAMESPACE, "kueue-manager-secrets-rolebinding")]
  }

  function NamespacedItems(monitors: bool): seq<Item> {
    CoreItems() + MonitoringItems(monitors) + [ItemOf(Service, OPERATOR_NAMESPACE, "kueue-visibility-server")]
  }

  function MonitoringItems(monitors: bool): seq<Item> {
    if !monitors then []
    else
      [ItemOf(Role, OPERATOR_NAMESPACE, "prometheus-k8s"),
       ItemOf(RoleBinding, OPERATOR_NAMESPACE, "prometheus-k8s"),
       ItemOf(Service, OPERATOR_NAMESPACE, "kueue-controller-manager-metrics-service"),
       ItemOf(ClusterRoleBinding, "", "kueue-metrics-monitoring-rolebinding")]
  }

  function FlowControlItems(): seq<Item> {
    [ItemOf(APIService, "", "v1beta1.visibility.kueue.x-k8s.io"),
     ItemOf(APIService, "", "v1beta2.visibility.kueue.x-k8s.io"),
     ItemOf(PriorityLevelConfiguration, "", "kueue-visibility"),
     ItemOf(FlowSchema, "", "visibility")]
  }

  function Named(kind: Kind, ns: string, names: seq<string>): seq<Item>
    requires IsHashed(kind)
  {
    seq(|names|, i requires 0 <= i < |names| => ItemOf(kind, ns, names[i]))
  }

  lemma NamedStep(kind: Kind, ns: string, names: seq<string>, name: string)
    requires IsHashed(kind)
    ensures Named(kind, ns, names + [name]) == Named(kind, ns, names) + [ItemOf(kind, ns, name)]
  {
  }

  function NamesOf(roles: seq<R.ClusterRole>): seq<string> {
    seq(|roles|, i requires 0 <= i < |roles| => roles[i].name)
  }

  function AssetItems(assets: Assets): seq<Item> {
    Named(CRD, "", R.Installed(assets.crds))
    + Named(NetworkPolicy, OPERATOR_NAMESPACE, assets.networkPolicies)
    + Named(ClusterRole, "", NamesOf(R.RolesFor(assets.clusterRoles, assets.crds)))
  }

  function OpenshiftItems(): seq<Item> {
    [ItemOf(ClusterRole, "", "kueue-openshift-roles"),
     ItemOf(ClusterRoleBinding, "", "kueue-openshift-cluster-role-binding"),
     ItemOf(ClusterRoleBinding, "", "kueue-proxy-rolebinding"),
     ItemOf(ClusterRoleBinding, "", "kueue-manager-rolebinding")]
  }

  function MetricsBindingItems(monitors: bool): seq<Item> {
    if !monitors then []
    else
      [ItemOf(ClusterRoleBinding, "", "kueue-metrics-rolebinding"),
       ItemOf(ClusterRoleBinding, "", "kueue-metrics-auth-rolebinding")]
  }

  function BindingItems(monitors: bool): seq<Item> {
    OpenshiftItems() + MetricsBindingItems(monitors)
    + [ItemOf(RoleBinding, SYSTEM_NS, "kueue-visibility-server-auth-reader")]
  }

  function WebhookItems(monitors: bool): seq<Item> {
    [ItemOf(MutatingWebhook, "", R.MUTATING), ItemOf(ValidatingWebhook, "", R.VALIDATING),
     ItemOf(Service, OPERATOR_NAMESPACE, "kueue-webhook-service")]
    + if monitors then [ItemOf(ServiceMonitor, OPERATOR_NAMESPACE, "kueue-metrics")] else []
  }

  function BasePlan(monitors: bool, assets: Assets): seq<Item> {
    NamespacedItems(monitors) + FlowControlItems() + AssetItems(assets)
  }

  function LatePlan(monitors: bool, assets: Assets): seq<Item> {
    BasePlan(monitors, assets) + BindingItems(monitors) + WebhookItems(monitors)
  }

  /** Everything a sync applies before the Deployment, in order. */
  function Plan(monitors: bool, assets: Assets): seq<Item> {
    CertificateItems() + LatePlan(monitors, assets)
  }

  lemma CertificateItemsAreEarly()
    ensures Plain(CertificateItems()) && |CertificateItems()| == 4
    ensures AllEarly(CertificateItems())
  {
    CertNameIsPlain(WebhookCert);
    CertNameIsPlain(MetricsCert);
    CertNameIsPlain(VisibilityCert);
  }

  predicate Plain(items: seq<Item>) {
    forall i :: i in items ==> PlainName(i.name)
  }

  predicate AllEarly(items: seq<Item>) {
    forall i :: i in items ==> EarlyItem(i)
  }

  lemma ItemIsPlain(items: seq<Item>, i: nat)
    requires Plain(items) && i < |items|
    ensures PlainName(items[i].name)
    ensures AllEarly(items) ==> EarlyItem(items[i])
    ensures items[..i + 1] == items[..i] + [items[i]]
  {
    hide PlainName, EarlyItem;
    assert items[i] in items;
  }

  lemma NamespacedIsPlain(monitors: bool)
    ensures Plain(NamespacedItems(monitors))
  {
    CoreIsPlain();
    MonitoringIsPlain(monitors);
    hide CoreItems, MonitoringItems;
  }

  lemma CoreIsPlain()
    ensures Plain(CoreItems())
  {
  }

  lemma MonitoringIsPlain(monitors: bool)
    ensures Plain(MonitoringItems(monitors))
  {
  }

  lemma FlowControlIsPlain()
    ensures Plain(FlowControlItems())
  {
  }

  lemma BindingsArePlain(monitors: bool)
    ensures Plain(BindingItems(monitors))
  {
  }

  lemma WebhooksArePlain(monitors: bool)
    ensures Plain(WebhookItems(monitors))
  {
  }

  /** No asset's name ends in "-", as Kubernetes requires. */
  ghost predicate PlainAssets(assets: Assets) {
    && (forall c :: c in assets.crds ==> PlainName(c.name))
    && (forall n :: n in assets.networkPolicies ==> PlainName(n))
    && (forall r :: r in assets.clusterRoles ==> PlainName(r.name))
  }

  /** The Deployment is the last object applied; before it went the whole plan, and the annotations it gives the
      pod template are the fingerprint of all that was applied. */
  ghost predicate DeploymentIsLast(c: Reconciler, t: seq<Effect>) {
    forall i :: 0 <= i < |t| && t[i].DeploymentApplied? ==>
      && (forall j :: i < j < |t| ==> !Applies(t[j]))
      && t[i].annotations == c.template + Annotations(c.hash, c.generation, Objects(t[..i]))
      && Items(Objects(t[..i])) == Plan(c.monitors, c.assets)
  }

  /** One more object on the trace of a rolling sync. */
  lemma ManageStep(t: seq<Effect>, item: Item, content: string)
    requires Rolling(t) && PlainNames(Objects(t)) && PlainName(item.name) && (EarlyItem(item) || AllReady(t))
    ensures var u := t + [Applied(Object(item, content))];
      && Rolling(u) && PlainNames(Objects(u)) && (AllReady(t) ==> AllReady(u))
      && Objects(u) == Objects(t) + [Object(item, content)]
      && Items(Objects(u)) == Items(Objects(t)) + [item]
  {
    var o := Object(item, content);
    var e := Applied(o);
    TraceStep(t, e);
    ItemsStep(Objects(t), o);
    hide Guarded, AllReady, Objects, Items, PlainName, EarlyItem, Early;
    assert forall x :: x in t + [e] ==> x in t || x == e;
    assert forall x :: x in Objects(t) + [o] ==> x in Objects(t) || x == o;
  }

  lemma ItemsStep(objs: seq<Object>, o: Object)
    ensures Items(objs + [o]) == Items(objs) + [o.item]
  {
  }

  function Cleanings(k: nat): seq<Effect> {
    seq(k, i requires 0 <= i < k => Cleaned(i))
  }

  /** The first k clean-up steps in order and, only after all five, the removal of the finalizer. */
  ghost predicate IsCleanUp(t: seq<Effect>, before: seq<Effect>, k: nat) {
    && k <= CLEANUP_STEPS
    && (t == before + Cleanings(k) || (k == CLEANUP_STEPS && t == before + Cleanings(k) + [FinalizerRemoved]))
  }

  lemma CleanUpAppliesNothing(t: seq<Effect>, before: seq<Effect>, k: nat)
    requires IsCleanUp(t, before, k) && (before == [] || before == [FinalizerAdded])
    ensures forall e :: e in t ==> !Applies(e) && !e.Ready? && !e.StatusUpdated?
  {
    assert forall e :: e in t ==> e in before || e in Cleanings(k) || e == FinalizerRemoved;
  }

  lemma AppliesNothing(c: Reconciler, t: seq<Effect>)
    requires forall e :: e in t ==> !Applies(e)
    ensures Guarded(t) && DeploymentIsLast(c, t) && Objects(t) == []
  {
    assert forall i :: 0 <= i < |t| ==> t[i] in t && !Applies(t[i]);
    NothingApplied(t);
  }

  lemma {:induction false} NothingApplied(t: seq<Effect>)
    requires forall e :: e in t ==> !Applies(e)
    ensures Objects(t) == []
  {
    if t != [] {
      NothingApplied(t[..|t| - 1]);
      assert t[|t| - 1] in t;
    }
  }

  lemma RollingIsBeforeDeployment(c: Reconciler, t: seq<Effect>)
    requires Rolling(t)
    ensures Guarded(t) && DeploymentIsLast(c, t) && FinalizerRemoved !in t
    ensures forall e :: e in t ==> !e.DeploymentApplied?
  {
    hide Guarded;
    assert forall i :: 0 <= i < |t| ==> t[i] in t && !t[i].DeploymentApplied?;
  }

  lemma DeploymentEnds(c: Reconciler, planned: seq<Effect>, d: Effect)
    requires Rolling(planned) && Items(Objects(planned)) == Plan(c.monitors, c.assets)
    requires d == DeploymentApplied(c.template + Annotations(c.hash, c.generation, Objects(planned)))
    ensures DeploymentIsLast(c, planned) && DeploymentIsLast(c, planned + [d])
    ensures DeploymentIsLast(c, planned + [d] + [StatusUpdated])
  {
    hide Plan, Annotations, Items, Objects, AllReady;
    var t := planned + [d] + [StatusUpdated];
    assert forall i :: 0 <= i < |planned| ==> planned[i] in planned && !planned[i].DeploymentApplied?;
    assert t[..|planned|] == planned == (planned + [d])[..|planned|];
  }

  lemma {:induction false} OnlyFinalizer(t: seq<Effect>)
    requires forall e :: e in t ==> e.FinalizerAdded?
    ensures Objects(t) == [] && Rolling(t)
  {
    if t != [] {
      OnlyFinalizer(t[..|t| - 1]);
      assert t[|t| - 1] in t;
    }
  }

  lemma StartsRolling(hash: Hash, generation: nat, t: seq<Effect>)
    requires forall e :: e in t ==> e.FinalizerAdded?
    ensures Objects(t) == [] && Rolling(t) && PlainNames(Objects(t))
    ensures Annotations(hash, generation, Objects(t)) == map[CLUSTER_KEY := Decimal(generation)]
  {
    OnlyFinalizer(t);
  }

  lemma NoAssetsYet(assets: Assets)
    ensures Named(CRD, "", R.Installed(assets.crds[..0])) == []
    ensures R.RolesFor(assets.clusterRoles[..0], assets.crds) == [] && Named(ClusterRole, "", NamesOf([])) == []
  {
  }

  lemma CrdStep(assets: Assets, i: nat)
    requires PlainAssets(assets) && i < |assets.crds|
    ensures var files := assets.crds;
      && PlainName(files[i].name)
      && R.Installed(files[..i + 1]) ==
         if R.IsAlpha(files[i]) then R.Installed(files[..i]) else R.Installed(files[..i]) + [files[i].name]
  {
    hide PlainName, R.IsAlpha;
    assert assets.crds[..i + 1][..i] == assets.crds[..i];
  }

  lemma RoleStep(assets: Assets, i: nat)
    requires PlainAssets(assets) && i < |assets.clusterRoles|
    ensures var roles, files := assets.clusterRoles, assets.crds;
      && PlainName(roles[i].name) && R.RoleFor(roles[i], files).name == roles[i].name
      && R.RolesFor(roles[..i + 1], files) ==
         if roles[i].aggregated then R.RolesFor(roles[..i], files)
         else R.RolesFor(roles[..i], files) + [R.RoleFor(roles[i], files)]
  {
    hide PlainName;
    assert assets.clusterRoles[..i + 1][..i] == assets.clusterRoles[..i];
  }

  lemma NamesStep(asked: seq<R.ClusterRole>, role: R.ClusterRole)
    ensures Named(ClusterRole, "", NamesOf(asked + [role]))
         == Named(ClusterRole, "", NamesOf(asked)) + [ObjKey(ClusterRole, "", role.name)]
  {
    assert NamesOf(asked + [role]) == NamesOf(asked) + [role.name];
    NamedStep(ClusterRole, "", NamesOf(asked), role.name);
  }

  lemma CrdsPrefix(assets: Assets, i: nat)
    requires i <= |assets.crds|
    ensures Named(CRD, "", R.Installed(assets.crds[..i])) <= Named(CRD, "", R.Installed(assets.crds))
  {
    hide R.Installed;
    R.PrefixOfInstalled(assets.crds, i);
  }

  lemma RolesPrefix(assets: Assets, i: nat)
    requires i <= |assets.clusterRoles|
    ensures Named(ClusterRole, "", NamesOf(R.RolesFor(assets.clusterRoles[..i], assets.crds)))
         <= Named(ClusterRole, "", NamesOf(R.RolesFor(assets.clusterRoles, assets.crds)))
  {
    hide R.RolesFor;
    R.PrefixOfRoles(assets.clusterRoles, i, assets.crds);
  }

  // ---- What the answers make of it ----

  /** The n calls from this one on went well: each answered ok, with something that can be hashed. */
  ghost predicate AllGood(answers: nat -> Answer, from: nat, n: nat) {
    forall c: nat :: from <= c < from + n ==> answers(c).ok && answers(c).hashable
  }

  /** What a call that returns this leaves on the cluster; one that fails may have had its effect all the same. */
  function Left(item: Item, a: Answer): seq<Object> {
    if a.ok || a.wrote then [Object(item, a.content)] else []
  }

  /** What one call for each of these items leaves, up to the first call that goes wrong. */
  ghost function Landed(answers: nat -> Answer, from: nat, items: seq<Item>): seq<Object> {
    if items == [] then []
    else
      var n := |items| - 1;
      Landed(answers, from, items[..n]) +
      if AllGood(answers, from, n) then Left(items[n], answers(from + n)) else []
  }

  lemma NothingLands(answers: nat -> Answer, from: nat)
    ensures Landed(answers, from, []) == [] && AllGood(answers, from, 0)
  {
  }

  lemma AllGoodSplits(answers: nat -> Answer, from: nat, n: nat, m: nat)
    ensures AllGood(answers, from, n + m) <==> AllGood(answers, from, n) && AllGood(answers, from + n, m)
  {
  }

  lemma LandedNext(answers: nat -> Answer, from: nat, a: seq<Item>, item: Item)
    ensures var next := answers(from + |a|);
      && (AllGood(answers, from, |a| + 1) <==> AllGood(answers, from, |a|) && next.ok && next.hashable)
      && Landed(answers, from, a + [item])
         == Landed(answers, from, a) + if AllGood(answers, from, |a|) then Left(item, next) else []
  {
    hide Landed, Left;
    var more := a + [item];
    assert more[..|a|] == a && more[|a|] == item;
    LandedLast(answers, from, more);
  }

  lemma LandedLast(answers: nat -> Answer, from: nat, items: seq<Item>)
    requires items != []
    ensures var n := |items| - 1;
      Landed(answers, from, items)
      == Landed(answers, from, items[..n]) + if AllGood(answers, from, n) then Left(items[n], answers(from + n)) else []
  {
    hide AllGood, Left;
  }

  lemma {:induction false} LandedSplits(answers: nat -> Answer, from: nat, a: seq<Item>, b: seq<Item>)
    ensures AllGood(answers, from, |a| + |b|) <==> AllGood(answers, from, |a|) && AllGood(answers, from + |a|, |b|)
    ensures Landed(answers, from, a + b)
         == Landed(answers, from, a) + if AllGood(answers, from, |a|) then Landed(answers, from + |a|, b) else []
  {
    hide *;
    AllGoodSplits(answers, from, |a|, |b|);
    if b == [] {
      NothingLands(answers, from + |a|);
      assert a + b == a;
    } else {
      var n := |b| - 1;
      var most, last := b[..n], b[n];
      assert most + [last] == b && a + b == (a + most) + [last];
      LandedSplits(answers, from, a, most);
      LandedNext(answers, from, a + most, last);
      LandedNext(answers, from + |a|, most, last);
    }
  }

  /** What happened before the calls stopped is all there is. */
  lemma LandedStops(answers: nat -> Answer, from: nat, done: seq<Item>, items: seq<Item>)
    requires done <= items
    ensures !AllGood(answers, from, |done|) ==>
      !AllGood(answers, from, |items|) && Landed(answers, from, items) == Landed(answers, from, done)
  {
    hide *;
    assert done + items[|done|..] == items;
    LandedSplits(answers, from, done, items[|done|..]);
  }

  /** On their own terms: an object is there exactly if all calls before its own went well and its own had an
      effect, and its content is what its own call returned. */
  lemma {:induction false} LandedAt(answers: nat -> Answer, from: nat, items: seq<Item>)
    ensures var l := Landed(answers, from, items);
      && |l| <= |items|
      && (forall k :: 0 <= k < |items| ==>
            (k < |l| <==> AllGood(answers, from, k) && (answers(from + k).ok || answers(from + k).wrote)))
      && (forall k :: 0 <= k < |l| ==> l[k] == Object(items[k], answers(from + k).content))
  {
    if items != [] {
      var n := |items| - 1;
      LandedAt(answers, from, items[..n]);
      if n > 0 && AllGood(answers, from, n) {
        assert answers(from + n - 1).ok;
        assert AllGood(answers, from, n - 1);
      }
    }
  }

  // ---- Where a sync's calls are ----

  /** How many calls the finalizer step makes, when it succeeds. */
  function FinalizerCalls(answers: nat -> Answer, from: nat, cached: bool): nat {
    if cached then 0 else if answers(from).finalizer then 1 else 2
  }

  predicate FinalizerStepOk(answers: nat -> Answer, from: nat, cached: bool) {
    cached || (answers(from).ok && (answers(from).finalizer || answers(from + 1).ok))
  }

  lemma FinalizerStepIf(answers: nat -> Answer, from: nat, cached: bool)
    ensures (forall c :: from <= c ==> answers(c).ok && answers(c).hashable) ==> FinalizerStepOk(answers, from, cached)
  {
  }

  /** The first n calls after the finalizer step went well; the fifth to the seventh are waits, which return nothing
      to hash. */
  ghost predicate WentWell(answers: nat -> Answer, first: nat, n: nat) {
    forall c: nat :: first <= c < first + n ==> answers(c).ok && (answers(c).hashable || first + 4 <= c < first + 7)
  }

  /** The call that the item at this place of the plan makes, counted from the first after the finalizer step. */
  function CallOf(k: nat): nat {
    if k < 4 then k else k + 3
  }

  lemma WellBefore(answers: nat -> Answer, first: nat, k: nat)
    ensures CallOf(k) == if k < 4 then k else k + 3
    ensures k < 4 ==> (WentWell(answers, first, k) <==> AllGood(answers, first, k))
    ensures k >= 4 ==> (WentWell(answers, first, CallOf(k)) <==>
      WentWell(answers, first, 7) && AllGood(answers, first + 7, k - 4))
  {
  }

  lemma CertificatesLanded(answers: nat -> Answer, first: nat)
    ensures WentWell(answers, first, 7) ==> |Landed(answers, first, CertificateItems())| == 4
    ensures |Landed(answers, first, CertificateItems())| <= 4
  {
    CertificateItemsAreEarly();
    LandedAt(answers, first, CertificateItems());
    if WentWell(answers, first, 7) {
      assert AllGood(answers, first, 3);
      assert answers(first + 3).ok;
    }
  }

  /** What a sync applies, item by item of the plan: an object is there exactly if every call before its own went well,
      and the reads behind the waits too, and its own call had an effect; its content is what that call returned. */
  lemma RolledAt(answers: nat -> Answer, first: nat, on: bool, monitors: bool, assets: Assets, k: nat)
    requires k < |Plan(monitors, assets)|
    ensures var a := answers(first + CallOf(k));
      var objs := Landed(answers, first, CertificateItems()) +
        if WentWell(answers, first, 7) && on then Landed(answers, first + 7, LatePlan(monitors, assets)) else [];
      && |objs| <= |Plan(monitors, assets)|
      && (k < |objs| <==> WentWell(answers, first, CallOf(k)) && (k < 4 || on) && (a.ok || a.wrote))
      && (k < |objs| ==> objs[k] == Object(Plan(monitors, assets)[k], a.content))
  {
    hide *;
    PlanSplits(monitors, assets);
    CertificatesLanded(answers, first);
    WellBefore(answers, first, k);
    LandedAt(answers, first, CertificateItems());
    LandedAt(answers, first + 7, LatePlan(monitors, assets));
  }

  lemma PlanSplits(monitors: bool, assets: Assets)
    ensures Plan(monitors, assets) == CertificateItems() + LatePlan(monitors, assets) && |CertificateItems()| == 4
  {
    CertificateItemsAreEarly();
  }

  lemma {:induction false} ObjectsAreApplied(t: seq<Effect>)
    ensures forall o :: o in Objects(t) <==> Applied(o) in t
  {
    if t != [] {
      var before, e := t[..|t| - 1], t[|t| - 1];
      ObjectsAreApplied(before);
      assert t == before + [e];
    }
  }

  /** With the certificates' objects only, nothing but the issuer and the certificates was applied. */
  lemma OnlyCertificates(t: seq<Effect>, answers: nat -> Answer, first: nat)
    requires Objects(t) == Landed(answers, first, CertificateItems())
    ensures forall e :: e in t && e.Applied? ==> e.obj.item.kind == Certificate || e.obj.item.kind == Issuer
  {
    ObjectsAreApplied(t);
    LandedAt(answers, first, CertificateItems());
    CertificateItemsAreEarly();
    hide Objects, Landed, CertificateItems;
    forall e | e in t && e.Applied? ensures e.obj.item.kind == Certificate || e.obj.item.kind == Issuer {
      assert e == Applied(e.obj) && e.obj in Objects(t);
      var k :| 0 <= k < |Objects(t)| && Objects(t)[k] == e.obj;
      assert CertificateItems()[k] in CertificateItems();
    }
  }

  /** A sync that is not a deletion, whose plan has n objects after the certificates, returns nil. */
  ghost predicate Works(answers: nat -> Answer, first: nat, reread: bool, tls: Tls, n: nat) {
    && WentWell(answers, first, 7) && reread
    && match tls
       case Unreadable => false
       case Unsupported => answers(first + 7).ok
       case Resolved => WentWell(answers, first, 7 + n) && answers(first + 7 + n).ok && answers(first + 8 + n).ok
  }

  lemma WaitsFail(answers: nat -> Answer, first: nat)
    ensures (exists c :: first + 4 <= c < first + 7 && !answers(c).ok) ==> !WentWell(answers, first, 7)
  {
  }

  lemma WorksIf(answers: nat -> Answer, first: nat, reread: bool, tls: Tls, n: nat)
    ensures Works(answers, first, reread, tls, n) ==> WentWell(answers, first, 7) && reread
    ensures Works(answers, first, reread, tls, n) && tls != Unsupported ==>
      tls == Resolved && WentWell(answers, first, 7 + n) && answers(first + 7 + n).ok
    ensures reread && tls == Resolved && (forall c :: first <= c ==> answers(c).ok && answers(c).hashable) ==>
      Works(answers, first, reread, tls, n) && forall k: nat {:trigger CallOf(k)} :: WentWell(answers, first, CallOf(k))
  {
  }

  /** The certificates' calls are the first four, and everything else comes after the three waits. */
  lemma WellSplits(answers: nat -> Answer, first: nat, n: nat)
    ensures WentWell(answers, first, 4) <==> AllGood(answers, first, 4)
    ensures WentWell(answers, first, 7 + n) <==> WentWell(answers, first, 7) && AllGood(answers, first + 7, n)
    ensures WentWell(answers, first, 7) ==> WentWell(answers, first, 4)
  {
  }

  lemma WaitsWell(answers: nat -> Answer, first: nat)
    ensures forall c: ServingCert :: WentWell(answers, first, 5 + WaitOf(c)) <==>
      AllGood(answers, first, 4) && forall d: nat :: first + 4 <= d <= first + 4 + WaitOf(c) ==> answers(d).ok
    ensures WentWell(answers, first, 7) <==>
      AllGood(answers, first, 4) && forall d: nat :: first + 4 <= d < first + 7 ==> answers(d).ok
    ensures WentWell(answers, first, 7) ==> forall c: ServingCert :: WentWell(answers, first, 5 + WaitOf(c))
  {
  }

  /** When all calls go well, everything asked for is there. */
  lemma AllLanded(answers: nat -> Answer, from: nat, items: seq<Item>, before: seq<Object>)
    requires AllGood(answers, from, |items|)
    ensures Items(Landed(answers, from, items)) == items
    ensures Items(before + Landed(answers, from, items)) == Items(before) + items
  {
    LandedAt(answers, from, items);
    var l := Landed(answers, from, items);
    if items != [] {
      assert AllGood(answers, from, |items| - 1);
      assert answers(from + |items| - 1).ok;
      assert |items| - 1 < |l|;
    }
    assert Items(before + l) == Items(before) + Items(l);
    assert Items(l) == items;
  }

  class Reconciler {
    const hash: Hash
    const template: M.StringMap
    const monitors: bool
    const assets: Assets
    const answers: nat -> Answer
    const generation: nat
    var calls: nat
    var trace: seq<Effect>
    var annotations: M.StringMap

    constructor (hash: Hash, template: M.StringMap, monitors: bool, assets: Assets, answers: nat -> Answer, generation: nat)
      ensures trace == [] && this.hash == hash && this.template == template && this.generation == generation
      ensures this.monitors == monitors && this.assets == assets && this.answers == answers
    {
      this.hash, this.template, this.monitors, this.assets := hash, template, monitors, assets;
      this.answers, this.generation, calls, trace, annotations := answers, generation, 0, [], map[];
    }

    /** The annotations are those of the objects applied so far. */
    ghost predicate Recorded()
      reads this
    {
      && Rolling(trace) && PlainNames(Objects(trace))
      && annotations == Annotations(hash, generation, Objects(trace))
    }

    method Call() returns (a: Answer)
      modifies this`calls
      ensures a == answers(old(calls)) && calls == old(calls) + 1
    {
      a := answers(calls);
      calls := calls + 1;
    }

    /** Apply one object, hash what the server returned, and note the hash under its kind and name. */
    method Manage(item: Item) returns (r: Outcome)
      requires Recorded() && PlainName(item.name) && (EarlyItem(item) || AllReady(trace))
      modifies this
      ensures calls == old(calls) + 1
      ensures var a := answers(old(calls));
        && trace == old(trace) + (if a.ok || a.wrote then [Applied(Object(item, a.content))] else [])
        && Objects(trace) == old(Objects(trace)) + (if a.ok || a.wrote then [Object(item, a.content)] else [])
        && (r.Proceed? <==> a.ok && a.hashable)
      ensures Rolling(trace) && (old(AllReady(trace)) ==> AllReady(trace))
      ensures r.Proceed? ==> Recorded()
      ensures r.Return? ==> r.failed
    {
      hide Rolling, PlainNames, PlainName, EarlyItem, AllReady, Objects, Annotations, KeyOf;
      var a := Call();
      if a.ok || a.wrote {
        var o := Object(item, a.content);
        ManageStep(trace, item, a.content);
        AnnotationsStep(hash, generation, Objects(trace), o);
        trace := trace + [Applied(o)];
      }
      if !a.ok || !a.hashable {
        return Return(true);
      }
      annotations := annotations[KeyOf(item) := hash(a.content)];
      r := Proceed;
    }

    method WaitFor(cert: ServingCert) returns (r: Outcome)
      requires Recorded()
      modifies this
      ensures calls == old(calls) + 1
      ensures var ok := answers(old(calls)).ok;
        trace == old(trace) + (if ok then [Ready(cert)] else []) && (r.Proceed? <==> ok)
      ensures Rolling(trace) && Objects(trace) == old(Objects(trace))
      ensures r.Proceed? ==> Recorded()
      ensures r.Return? ==> r.failed
    {
      var a := Call();
      if !a.ok {
        return Return(true);
      }
      TraceStep(trace, Ready(cert));
      trace := trace + [Ready(cert)];
      r := Proceed;
    }

    /** One wait per certificate; a certificate is noted as ready exactly if its own wait and those before answered
        ok. */
    method WaitForCertificates() returns (r: Outcome)
      requires Recorded()
      modifies this
      ensures old(trace) <= trace && forall e :: e in trace ==> e in old(trace) || e.Ready?
      ensures Rolling(trace) && Objects(trace) == old(Objects(trace))
      ensures forall c: ServingCert :: Ready(c) in trace <==>
        Ready(c) in old(trace) || forall d: nat :: old(calls) <= d <= old(calls) + WaitOf(c) ==> answers(d).ok
      ensures r.Proceed? <==> forall d: nat :: old(calls) <= d < old(calls) + 3 ==> answers(d).ok
      ensures r.Proceed? ==> Recorded() && AllReady(trace) && calls == old(calls) + 3
      ensures r.Return? ==> r.failed
    {
      hide Objects, Annotations, Rolling, PlainNames;
      :- WaitFor(WebhookCert);
      :- WaitFor(MetricsCert);
      :- WaitFor(VisibilityCert);
      r := Proceed;
    }

    /** One object after the other, until one fails. */
    method ManageEach(items: seq<Item>) returns (r: Outcome)
      requires Recorded() && Plain(items) && (AllEarly(items) || AllReady(trace))
      modifies this
      ensures Grows(old(trace), trace)
      ensures Rolling(trace) && (old(AllReady(trace)) ==> AllReady(trace))
      ensures Objects(trace) == old(Objects(trace)) + Landed(answers, old(calls), items)
      ensures r.Proceed? <==> AllGood(answers, old(calls), |items|)
      ensures r.Proceed? ==> Recorded() && calls == old(calls) + |items|
      ensures r.Return? ==> r.failed
    {
      hide Rolling, PlainNames, AllReady, Objects, Annotations, Plain, PlainName, EarlyItem, AllEarly, Guarded;
      hide AllGood, Landed;
      ghost var before, from, ready := Objects(trace), calls, AllReady(trace);
      NothingLands(answers, from);
      for i := 0 to |items|
        invariant Recorded() && (ready ==> AllReady(trace)) && Grows(old(trace), trace)
        invariant calls == from + i && AllGood(answers, from, i)
        invariant Objects(trace) == before + Landed(answers, from, items[..i])
      {
        ItemIsPlain(items, i);
        LandedNext(answers, from, items[..i], items[i]);
        LandedStops(answers, from, items[..i + 1], items);
        :- Manage(items[i]);
      }
      assert items[..|items|] == items;
      r := Proceed;
    }

    /** The CRDs without an alpha version. */
    method ManageCustomResources() returns (r: Outcome)
      requires Recorded() && AllReady(trace) && PlainAssets(assets)
      modifies this
      ensures Grows(old(trace), trace) && Rolling(trace)
      ensures var items := Named(CRD, "", R.Installed(assets.crds));
        && Objects(trace) == old(Objects(trace)) + Landed(answers, old(calls), items)
        && (r.Proceed? <==> AllGood(answers, old(calls), |items|))
        && (r.Proceed? ==> Recorded() && AllReady(trace) && calls == old(calls) + |items|)
      ensures r.Return? ==> r.failed
    {
      hide Rolling, PlainNames, AllReady, Objects, Annotations, Plain, PlainName, AllEarly, Guarded;
      hide AllGood, Landed, Named, PlainAssets, R.Installed, R.IsAlpha, HasSuffix;
      var files := assets.crds;
      ghost var before, from, names := Objects(trace), calls, R.Installed(files[..0]);
      ghost var items := Named(CRD, "", R.Installed(files));
      NoAssetsYet(assets);
      NothingLands(answers, from);
      for i := 0 to |files|
        invariant Recorded() && AllReady(trace) && Grows(old(trace), trace)
        invariant names == R.Installed(files[..i])
        invariant calls == from + |Named(CRD, "", names)| && AllGood(answers, from, |Named(CRD, "", names)|)
        invariant Objects(trace) == before + Landed(answers, from, Named(CRD, "", names))
      {
        CrdStep(assets, i);
        var alpha := R.HasAlphaVersion(files[i]);
        if !alpha {
          var item := ObjKey(CRD, "", files[i].name);
          NamedStep(CRD, "", names, files[i].name);
          LandedNext(answers, from, Named(CRD, "", names), item);
          CrdsPrefix(assets, i + 1);
          LandedStops(answers, from, Named(CRD, "", names + [files[i].name]), items);
          :- Manage(item);
          names := names + [files[i].name];
        }
      }
      assert files[..|files|] == files;
      r := Proceed;
    }

    /** The roles asked for are those of the assets that are not aggregated, the manager role scoped. */
    method ManageClusterRoles() returns (r: Outcome, ghost asked: seq<R.ClusterRole>)
      requires Recorded() && AllReady(trace) && PlainAssets(assets)
      modifies this
      ensures Grows(old(trace), trace) && Rolling(trace)
      ensures r.Proceed? ==> asked == R.RolesFor(assets.clusterRoles, assets.crds)
      ensures var items := Named(ClusterRole, "", NamesOf(R.RolesFor(assets.clusterRoles, assets.crds)));
        && Objects(trace) == old(Objects(trace)) + Landed(answers, old(calls), items)
        && (r.Proceed? <==> AllGood(answers, old(calls), |items|))
        && (r.Proceed? ==> Recorded() && AllReady(trace) && calls == old(calls) + |items|)
      ensures r.Return? ==> r.failed
    {
      hide Rolling, PlainNames, AllReady, Objects, Annotations, Plain, PlainName, AllEarly, Guarded;
      hide AllGood, Landed, Named, NamesOf, PlainAssets, HasSuffix;
      hide R.RolesFor, R.RoleFor, R.Installed, R.IsAlpha;
      var roles := assets.clusterRoles;
      ghost var before, from := Objects(trace), calls;
      ghost var items := Named(ClusterRole, "", NamesOf(R.RolesFor(roles, assets.crds)));
      asked := [];
      NoAssetsYet(assets);
      NothingLands(answers, from);
      for i := 0 to |roles|
        invariant Recorded() && AllReady(trace) && Grows(old(trace), trace)
        invariant asked == R.RolesFor(roles[..i], assets.crds)
        invariant var done := Named(ClusterRole, "", NamesOf(asked));
          && calls == from + |done| && AllGood(answers, from, |done|)
          && Objects(trace) == before + Landed(answers, from, done)
      {
        RoleStep(assets, i);
        if !roles[i].aggregated {
          var required := R.RequiredRole(roles[i], assets.crds);
          var item := ObjKey(ClusterRole, "", required.name);
          NamesStep(asked, required);
          LandedNext(answers, from, Named(ClusterRole, "", NamesOf(asked)), item);
          RolesPrefix(assets, i + 1);
          LandedStops(answers, from, Named(ClusterRole, "", NamesOf(asked + [required])), items);
          r := Manage(item);
          asked := asked + [required];
          if r.IsFailure() {
            return;
          }
        }
      }
      assert roles[..|roles|] == roles;
      r := Proceed;
    }

    method ManageNetworkPolicies() returns (r: Outcome)
      requires Recorded() && AllReady(trace) && PlainAssets(assets)
      modifies this
      ensures Grows(old(trace), trace) && Rolling(trace)
      ensures var items := Named(NetworkPolicy, OPERATOR_NAMESPACE, assets.networkPolicies);
        && Objects(trace) == old(Objects(trace)) + Landed(answers, old(calls), items)
        && (r.Proceed? <==> AllGood(answers, old(calls), |items|))
        && (r.Proceed? ==> Recorded() && AllReady(trace) && calls == old(calls) + |items|)
      ensures r.Return? ==> r.failed
    {
      hide Rolling, PlainNames, AllReady, Objects, Annotations, AllEarly, Guarded, Recorded, AllGood, Landed;
      r := ManageEach(Named(NetworkPolicy, OPERATOR_NAMESPACE, assets.networkPolicies));
    }

    method ManageDirectories() returns (r: Outcome)
      requires Recorded() && AllReady(trace) && PlainAssets(assets)
      modifies this
      ensures Grows(old(trace), trace) && Rolling(trace)
      ensures Objects(trace) == old(Objects(trace)) + Landed(answers, old(calls), AssetItems(assets))
      ensures r.Proceed? <==> AllGood(answers, old(calls), |AssetItems(assets)|)
      ensures r.Proceed? ==> Recorded() && AllReady(trace) && calls == old(calls) + |AssetItems(assets)|
      ensures r.Return? ==> r.failed
    {
      hide Recorded, Rolling, PlainNames, AllReady, Objects, Annotations, Guarded, AllGood, Landed;
      hide Named, R.Installed, R.RolesFor, NamesOf, PlainAssets;
      ghost var crds, policies := Named(CRD, "", R.Installed(assets.crds)),
                                  Named(NetworkPolicy, OPERATOR_NAMESPACE, assets.networkPolicies);
      ghost var roles := Named(ClusterRole, "", NamesOf(R.RolesFor(assets.clusterRoles, assets.crds)));
      LandedSplits(answers, calls, crds, policies);
      LandedSplits(answers, calls, crds + policies, roles);
      :- ManageCustomResources();
      :- ManageNetworkPolicies();
      ghost var asked;
      r, asked := ManageClusterRoles();
    }

    /** The finalizer is patched in unless the CR read from the cache has it or, at a second look, the server's.
        Where the second look finds it the cached copy stays in use, without the finalizer. */
    method AddFinalizer(cached: bool) returns (r: Outcome, local: bool)
      requires trace == []
      modifies this
      ensures var get, patch := answers(old(calls)), answers(old(calls) + 1);
        trace ==
          if !cached && get.ok && !get.finalizer && (patch.ok || patch.wrote) then [FinalizerAdded] else []
      ensures r.Proceed? ==> (local <==> cached || !answers(old(calls)).finalizer)
      ensures r.Proceed? ==> (local <==> cached || trace == [FinalizerAdded])
      ensures r.Proceed? <==> FinalizerStepOk(answers, old(calls), cached)
      ensures r.Proceed? ==> calls == old(calls) + FinalizerCalls(answers, old(calls), cached)
      ensures r.Return? ==> r.failed
    {
      if cached {
        return Proceed, true;
      }
      var live := Call();
      if !live.ok {
        return Return(true), false;
      }
      if live.finalizer {
        return Proceed, false;
      }
      var patch := Call();
      if patch.ok || patch.wrote {
        trace := trace + [FinalizerAdded];
      }
      return if patch.ok then Proceed else Return(true), true;
    }

    /** The finalizer is patched out if the copy in use and, at a second look, the server's CR have it; a failure is
        only logged. */
    method RemoveFinalizer(local: bool)
      modifies this
      ensures var get, patch := answers(old(calls)), answers(old(calls) + 1);
        trace == old(trace) +
          (if local && get.ok && get.finalizer && (patch.ok || patch.wrote) then [FinalizerRemoved] else [])
    {
      if local {
        var live := Call();
        if live.ok && live.finalizer {
          var patch := Call();
          if patch.ok || patch.wrote {
            trace := trace + [FinalizerRemoved];
          }
        }
      }
    }

    /** The five clean-up steps and, if all succeed, the removal of the finalizer, unless the copy in use or, at a
        second look, the server's CR lacks it; its failure is only logged. */
    method CleanUp(local: bool) returns (r: Outcome)
      requires trace == [] || trace == [FinalizerAdded]
      modifies this
      ensures Extends(old(trace), trace)
      ensures exists k: nat :: IsCleanUp(trace, old(trace), k)
      ensures forall s: nat :: Cleaned(s) in trace <==>
        s < CLEANUP_STEPS && forall c :: old(calls) <= c <= old(calls) + s ==> answers(c).ok
      ensures r.Return?
      ensures r.failed <==> exists c :: old(calls) <= c < old(calls) + CLEANUP_STEPS && !answers(c).ok
      ensures FinalizerRemoved in trace <==>
        var get, patch := answers(old(calls) + CLEANUP_STEPS), answers(old(calls) + CLEANUP_STEPS + 1);
        !r.failed && local && get.ok && get.finalizer && (patch.ok || patch.wrote)
    {
      for s := 0 to CLEANUP_STEPS
        invariant trace == old(trace) + Cleanings(s) && calls == old(calls) + s
        invariant forall k: nat :: Cleaned(k) in trace <==> k < s
        invariant forall c :: old(calls) <= c < calls ==> answers(c).ok
      {
        var a := Call();
        if !a.ok {
          assert IsCleanUp(trace, old(trace), s);
          return Return(true);
        }
        trace := trace + [Cleaned(s)];
      }
      assert IsCleanUp(trace, old(trace), CLEANUP_STEPS);
      r := Return(false);
      ghost var cleaned := trace;
      RemoveFinalizer(local);
      assert trace == cleaned || trace == cleaned + [FinalizerRemoved];
      assert IsCleanUp(trace, old(trace), CLEANUP_STEPS);
    }

    method UpdateStatus() returns (r: Outcome)
      requires Guarded(trace)
      modifies this
      ensures calls == old(calls) + 1
      ensures var a := answers(old(calls));
        && trace == old(trace) + (if a.ok || a.wrote then [StatusUpdated] else [])
        && r == Return(!a.ok)
      ensures Objects(trace) == old(Objects(trace))
      ensures Guarded(trace) && (old(Rolling(trace)) ==> Rolling(trace))
    {
      var a := Call();
      if a.ok || a.wrote {
        TraceStep(trace, StatusUpdated);
        trace := trace + [StatusUpdated];
      }
      r := Return(!a.ok);
    }

    method ManageDeployment() returns (r: Outcome)
      requires Recorded() && AllReady(trace)
      modifies this
      ensures calls == old(calls) + 1
      ensures var a := answers(old(calls));
        && trace == old(trace) + (if a.ok || a.wrote then [DeploymentApplied(template + old(annotations))] else [])
        && r == if a.ok then Proceed else Return(true)
      ensures Objects(trace) == old(Objects(trace)) && Guarded(trace)
    {
      AnnotationsRemoveNothing(hash, generation, Objects(trace));
      var order := M.VisitKeys(annotations);
      var merged, _ := M.MergeMap(template, annotations, order);
      M.MergeOverrides(template, order, annotations);
      assert (map k | k in order :: annotations[k]) == annotations;
      var a := Call();
      if a.ok || a.wrote {
        TraceStep(trace, DeploymentApplied(merged));
        trace := trace + [DeploymentApplied(merged)];
      }
      r := if a.ok then Proceed else Return(true);
    }

    /** The namespaced objects, the API services and flow control, and the asset directories. */
    method ManageBase() returns (r: Outcome)
      requires Recorded() && AllReady(trace) && PlainAssets(assets)
      modifies this
      ensures Grows(old(trace), trace) && Rolling(trace)
      ensures Objects(trace) == old(Objects(trace)) + Landed(answers, old(calls), BasePlan(monitors, assets))
      ensures r.Proceed? <==> AllGood(answers, old(calls), |BasePlan(monitors, assets)|)
      ensures r.Proceed? ==> Recorded() && AllReady(trace) && calls == old(calls) + |BasePlan(monitors, assets)|
      ensures r.Return? ==> r.failed
    {
      hide NamespacedItems, FlowControlItems, AssetItems, Plain, AllEarly, PlainAssets;
      hide Recorded, Rolling, PlainNames, AllReady, Objects, Annotations, AllGood, Landed;
      ghost var n, f, a := NamespacedItems(monitors), FlowControlItems(), AssetItems(assets);
      LandedSplits(answers, calls, n, f);
      LandedSplits(answers, calls, n + f, a);
      NamespacedIsPlain(monitors);
      FlowControlIsPlain();
      :- ManageEach(NamespacedItems(monitors));
      :- ManageEach(FlowControlItems());
      r := ManageDirectories();
    }

    /** The bindings and the webhooks. */
    method ManageRest() returns (r: Outcome)
      requires Recorded() && AllReady(trace)
      modifies this
      ensures Grows(old(trace), trace) && Rolling(trace)
      ensures var items := BindingItems(monitors) + WebhookItems(monitors);
        && Objects(trace) == old(Objects(trace)) + Landed(answers, old(calls), items)
        && (r.Proceed? <==> AllGood(answers, old(calls), |items|))
        && (r.Proceed? ==> Recorded() && AllReady(trace) && calls == old(calls) + |items|)
      ensures r.Return? ==> r.failed
    {
      hide BindingItems, WebhookItems, Plain, AllEarly;
      hide Recorded, Rolling, PlainNames, AllReady, Objects, Annotations, AllGood, Landed;
      LandedSplits(answers, calls, BindingItems(monitors), WebhookItems(monitors));
      BindingsArePlain(monitors);
      WebhooksArePlain(monitors);
      :- ManageEach(BindingItems(monitors));
      r := ManageEach(WebhookItems(monitors));
    }

    /** Everything between the certificates and the Deployment: in this order, one call each, up to the first call
        that goes wrong. */
    method ManagePlan() returns (r: Outcome)
      requires Recorded() && AllReady(trace) && PlainAssets(assets)
      modifies this
      ensures Grows(old(trace), trace) && Rolling(trace)
      ensures Objects(trace) == old(Objects(trace)) + Landed(answers, old(calls), LatePlan(monitors, assets))
      ensures r.Proceed? <==> AllGood(answers, old(calls), |LatePlan(monitors, assets)|)
      ensures r.Proceed? ==> Recorded() && AllReady(trace) && calls == old(calls) + |LatePlan(monitors, assets)|
      ensures r.Return? ==> r.failed
    {
      hide BasePlan, BindingItems, WebhookItems, PlainAssets;
      hide Recorded, Rolling, PlainNames, AllReady, Objects, Annotations, AllGood, Landed;
      ghost var base, rest := BasePlan(monitors, assets), BindingItems(monitors) + WebhookItems(monitors);
      assert LatePlan(monitors, assets) == base + rest;
      LandedSplits(answers, calls, base, rest);
      :- ManageBase();
      r := ManageRest();
    }

    /** The certificates, the waits for them, and what is read afterwards. */
    method Prepare(reread: bool, tls: Tls) returns (r: Outcome)
      requires forall e :: e in trace ==> e.FinalizerAdded?
      modifies this
      ensures Extends(old(trace), trace) && Rolling(trace)
      ensures Objects(trace) == Landed(answers, old(calls), CertificateItems())
      ensures ReadyAsWaited(this, trace, old(calls), true)
      ensures StatusUpdated in trace ==> WentWell(answers, old(calls), 7)
      ensures r.Proceed? <==> WentWell(answers, old(calls), 7) && reread && tls == Resolved
      ensures r.Proceed? ==> Recorded() && AllReady(trace) && calls == old(calls) + 7
      ensures r.Return? ==>
        (r.failed <==> !(WentWell(answers, old(calls), 7) && reread && tls == Unsupported && answers(old(calls) + 7).ok))
    {
      hide CertificateItems, Rolling, AllReady, Plain, AllEarly, PlainNames, Objects, Annotations;
      hide AllGood, WentWell, Landed, Guarded, DeploymentIsLast;
      StartsRolling(hash, generation, trace);
      annotations := map[CLUSTER_KEY := Decimal(generation)];
      CertificateItemsAreEarly();
      WaitsWell(answers, calls);
      :- ManageEach(CertificateItems());
      :- WaitForCertificates();
      if !reread || tls == Unreadable {
        return Return(true);
      }
      if tls == Unsupported {
        RollingIsBeforeDeployment(this, trace);
        r := UpdateStatus();
        return;
      }
      r := Proceed;
    }

    method RollOut(reread: bool, tls: Tls) returns (r: Outcome)
      requires PlainAssets(assets) && forall e :: e in trace ==> e.FinalizerAdded?
      modifies this
      ensures Extends(old(trace), trace)
      ensures Guarded(trace) && DeploymentIsLast(this, trace) && FinalizerRemoved !in trace
      ensures AppliesPlan(this, trace, old(calls), true, reread && tls == Resolved)
      ensures ReadyAsWaited(this, trace, old(calls), true)
      ensures !WentWell(answers, old(calls), 7) ==>
        forall e :: e in trace ==>
          && !e.DeploymentApplied? && !e.StatusUpdated?
          && (e.Applied? ==> e.obj.item.kind == Certificate || e.obj.item.kind == Issuer)
      ensures var n := |LatePlan(monitors, assets)|;
        var d := answers(old(calls) + 7 + n);
        (exists e :: e in trace && e.DeploymentApplied?) <==>
          WentWell(answers, old(calls), 7 + n) && reread && tls == Resolved && (d.ok || d.wrote)
      ensures r.Return? && (r.failed <==> !Works(answers, old(calls), reread, tls, |LatePlan(monitors, assets)|))
    {
      hide CertificateItems, LatePlan, Annotations, Rolling, AllReady, Objects, Items, Guarded, DeploymentIsLast;
      hide PlainNames, PlainAssets, AllGood, WentWell, Landed, Recorded, AppliesPlan, ReadyAsWaited, Plan;
      ghost var first := calls;
      WaitsWell(answers, first);
      WellSplits(answers, first, |LatePlan(monitors, assets)|);
      r := Prepare(reread, tls);
      if r.Return? {
        RollingIsBeforeDeployment(this, trace);
        OnlyCertificates(trace, answers, first);
        RolledObjects(this, trace, first, reread && tls == Resolved);
      } else {
        ghost var prepared := trace;
        CertificateItemsAreEarly();
        AllLanded(answers, first, CertificateItems(), []);
        r := FinishRollOut();
        ExtendsOn(old(trace), prepared, trace);
        AllWaited(this, trace, prepared, first);
        RolledObjects(this, trace, first, true);
      }
    }

    method FinishRollOut() returns (r: Outcome)
      requires Recorded() && AllReady(trace) && PlainAssets(assets)
      requires Items(Objects(trace)) == CertificateItems()
      modifies this
      ensures Extends(old(trace), trace)
      ensures Guarded(trace) && DeploymentIsLast(this, trace) && FinalizerRemoved !in trace
      ensures Objects(trace) == old(Objects(trace)) + Landed(answers, old(calls), LatePlan(monitors, assets))
      ensures var n, d := |LatePlan(monitors, assets)|, answers(old(calls) + |LatePlan(monitors, assets)|);
        && ((exists e :: e in trace && e.DeploymentApplied?) <==> AllGood(answers, old(calls), n) && (d.ok || d.wrote))
        && r == Return(!(AllGood(answers, old(calls), n) && d.ok && answers(old(calls) + n + 1).ok))
    {
      hide CertificateItems, LatePlan, Annotations, Rolling, AllReady, Objects, Items, Guarded, DeploymentIsLast;
      hide PlainNames, PlainAssets, AllGood, Landed;
      ghost var before, from := Objects(trace), calls;
      r := ManagePlan();
      RollingIsBeforeDeployment(this, trace);
      if r.Return? {
        return;
      }
      AllLanded(answers, from, LatePlan(monitors, assets), before);
      ghost var planned, d := trace, DeploymentApplied(template + annotations);
      DeploymentEnds(this, planned, d);
      r := ManageDeployment();
      if r.Return? {
        assert trace == planned || trace == planned + [d];
        assert d in planned + [d];
        return;
      }
      assert trace == planned + [d];
      r := UpdateStatus();
      assert trace == planned + [d] || trace == planned + [d] + [StatusUpdated];
      assert d in trace;
    }

    /** One sync of the CR read from the cache, from the finalizer on. `deleting` is the deletion mark, and the
        reconciler's generation that of the CR, as the finalizer step leaves it. */
    method Sync(cachedFinalizer: bool, deleting: bool, reread: bool, tls: Tls) returns (r: Outcome)
      requires PlainAssets(assets) && trace == []
      modifies this
      ensures Guarded(trace) && DeploymentIsLast(this, trace)
      ensures !cachedFinalizer && !answers(old(calls)).finalizer && trace != [] ==> trace[0] == FinalizerAdded
      ensures FinalizerAdded in trace <==>
        var get, patch := answers(old(calls)), answers(old(calls) + 1);
        !cachedFinalizer && get.ok && !get.finalizer && (patch.ok || patch.wrote)
      ensures r.Return?
      // What is applied, and which certificates are ready.
      ensures var first := old(calls) + FinalizerCalls(answers, old(calls), cachedFinalizer);
        var going := !deleting && FinalizerStepOk(answers, old(calls), cachedFinalizer);
        && AppliesPlan(this, trace, first, going, reread && tls == Resolved)
        && ReadyAsWaited(this, trace, first, going)
        && (!deleting && (exists c :: first + 4 <= c < first + 7 && !answers(c).ok) ==>
              r.failed && forall e :: e in trace ==>
                && !e.DeploymentApplied? && !e.StatusUpdated?
                && (e.Applied? ==> e.obj.item.kind == Certificate || e.obj.item.kind == Issuer))
      // The Deployment and the result.
      ensures var first := old(calls) + FinalizerCalls(answers, old(calls), cachedFinalizer);
        var n := |LatePlan(monitors, assets)|;
        var d := answers(first + 7 + n);
        && ((exists e :: e in trace && e.DeploymentApplied?) <==>
              && !deleting && FinalizerStepOk(answers, old(calls), cachedFinalizer)
              && WentWell(answers, first, 7 + n) && reread && tls == Resolved && (d.ok || d.wrote))
        && (!deleting ==>
              (r.failed <==> !(FinalizerStepOk(answers, old(calls), cachedFinalizer) &&
                               Works(answers, first, reread, tls, n))))
      ensures !deleting && reread && tls == Resolved && (forall c :: old(calls) <= c ==> answers(c).ok && answers(c).hashable) ==>
        !r.failed && Items(Objects(trace)) == Plan(monitors, assets) && exists e :: e in trace && e.DeploymentApplied?
      ensures !r.failed ==> deleting || tls == Unsupported || exists e :: e in trace && e.DeploymentApplied?
      // A deletion.
      ensures deleting ==> forall e :: e in trace ==> !Applies(e)
      ensures deleting ==> exists before, k :: (before == [] || before == [FinalizerAdded]) && IsCleanUp(trace, before, k)
      ensures var first := old(calls) + FinalizerCalls(answers, old(calls), cachedFinalizer);
        deleting ==>
          && (r.failed <==> !(FinalizerStepOk(answers, old(calls), cachedFinalizer) &&
                              forall c :: first <= c < first + CLEANUP_STEPS ==> answers(c).ok))
          && (FinalizerRemoved in trace <==>
                var get, patch := answers(first + CLEANUP_STEPS), answers(first + CLEANUP_STEPS + 1);
                && !r.failed && (cachedFinalizer || !answers(old(calls)).finalizer)
                && get.ok && get.finalizer && (patch.ok || patch.wrote))
      ensures FinalizerRemoved in trace ==> deleting && (cachedFinalizer || FinalizerAdded in trace)
    {
      hide Annotations, Objects, Plan, LatePlan, IsCleanUp, Guarded, DeploymentIsLast, WentWell, Works, CallOf, Items;
      hide FinalizerStepOk, FinalizerCalls, PlainAssets, AppliesPlan, ReadyAsWaited;
      var local;
      ghost var first, on := calls + FinalizerCalls(answers, calls, cachedFinalizer), reread && tls == Resolved;
      FinalizerStepIf(answers, calls, cachedFinalizer);
      r, local := AddFinalizer(cachedFinalizer);
      ghost var before := trace;
      if r.Return? {
        NoCleanUpYet(trace);
        OnlyFinalizerApplies(this, trace);
        NothingPlanned(this, trace, first, on);
      } else if deleting {
        r := CleanUp(local);
        ghost var k :| IsCleanUp(trace, before, k);
        CleanUpIsHarmless(this, trace, before, k);
        NothingPlanned(this, trace, first, on);
      } else {
        WaitsFail(answers, first);
        WorksIf(answers, first, reread, tls, |LatePlan(monitors, assets)|);
        r := RollOut(reread, tls);
        if reread && tls == Resolved && forall c :: first <= c ==> answers(c).ok && answers(c).hashable {
          WholePlan(this, trace, first);
        }
      }
    }
  }

  lemma CleanUpIsHarmless(c: Reconciler, t: seq<Effect>, before: seq<Effect>, k: nat)
    requires IsCleanUp(t, before, k) && (before == [] || before == [FinalizerAdded])
    ensures Guarded(t) && DeploymentIsLast(c, t) && Objects(t) == []
    ensures forall e :: e in t ==> !Applies(e) && !e.Ready? && !e.StatusUpdated?
  {
    CleanUpAppliesNothing(t, before, k);
    AppliesNothing(c, t);
  }

  lemma OnlyFinalizerApplies(c: Reconciler, t: seq<Effect>)
    requires t == [] || t == [FinalizerAdded]
    ensures Guarded(t) && DeploymentIsLast(c, t) && Objects(t) == []
  {
    AppliesNothing(c, t);
  }

  /** The objects on the trace, item by item of the plan: if the sync gets to applying (`going`), an object is there
      exactly if every call before its own went well, with what is read behind the waits (`on`) where it comes after
      them, and its own call had an effect. Its content is what that call returned. */
  ghost predicate AppliesPlan(c: Reconciler, t: seq<Effect>, first: nat, going: bool, on: bool) {
    && |Objects(t)| <= |Plan(c.monitors, c.assets)|
    && forall k: nat :: k < |Plan(c.monitors, c.assets)| ==> AppliesAt(c, t, first, going, on, k)
  }

  ghost predicate AppliesAt(c: Reconciler, t: seq<Effect>, first: nat, going: bool, on: bool, k: nat)
    requires k < |Plan(c.monitors, c.assets)|
  {
    var objs, a := Objects(t), c.answers(first + CallOf(k));
    && (k < |objs| <==> going && WentWell(c.answers, first, CallOf(k)) && (k < 4 || on) && (a.ok || a.wrote))
    && (k < |objs| ==> objs[k] == Object(Plan(c.monitors, c.assets)[k], a.content))
  }

  /** A certificate counts as ready exactly if its own wait answered ok, and all calls before it. */
  ghost predicate ReadyAsWaited(c: Reconciler, t: seq<Effect>, first: nat, going: bool) {
    forall cert: ServingCert :: Ready(cert) in t <==> going && WentWell(c.answers, first, 5 + WaitOf(cert))
  }

  lemma WholePlanAt(c: Reconciler, t: seq<Effect>, first: nat, k: nat)
    requires AppliesPlan(c, t, first, true, true) && k < |Plan(c.monitors, c.assets)|
    requires forall n :: first <= n ==> c.answers(n).ok && c.answers(n).hashable
    ensures k < |Objects(t)| && Objects(t)[k].item == Plan(c.monitors, c.assets)[k]
  {
    hide Plan, Objects;
    assert AppliesAt(c, t, first, true, true, k) && WentWell(c.answers, first, CallOf(k));
    assert c.answers(first + CallOf(k)).ok;
  }

  lemma WholePlan(c: Reconciler, t: seq<Effect>, first: nat)
    requires AppliesPlan(c, t, first, true, true)
    requires forall n :: first <= n ==> c.answers(n).ok && c.answers(n).hashable
    ensures Items(Objects(t)) == Plan(c.monitors, c.assets)
  {
    hide Plan, Objects;
    var n, plan := |Objects(t)|, Plan(c.monitors, c.assets);
    forall k: nat | k < |plan| ensures k < n && Objects(t)[k].item == plan[k] {
      WholePlanAt(c, t, first, k);
    }
    if plan != [] {
      WholePlanAt(c, t, first, |plan| - 1);
    }
  }

  lemma RolledObjects(c: Reconciler, t: seq<Effect>, first: nat, on: bool)
    requires Objects(t) == Landed(c.answers, first, CertificateItems()) +
      if WentWell(c.answers, first, 7) && on then Landed(c.answers, first + 7, LatePlan(c.monitors, c.assets)) else []
    ensures AppliesPlan(c, t, first, true, on)
  {
    hide Plan, LatePlan, CertificateItems, Objects, Landed, WentWell, CallOf;
    PlanSplits(c.monitors, c.assets);
    RolledAt(c.answers, first, on, c.monitors, c.assets, 0);
    forall k: nat | k < |Plan(c.monitors, c.assets)| ensures AppliesAt(c, t, first, true, on, k) {
      RolledAt(c.answers, first, on, c.monitors, c.assets, k);
    }
  }

  lemma AllWaited(c: Reconciler, t: seq<Effect>, before: seq<Effect>, first: nat)
    requires before <= t && AllReady(before) && WentWell(c.answers, first, 7)
    ensures ReadyAsWaited(c, t, first, true)
  {
    WaitsWell(c.answers, first);
    forall cert: ServingCert ensures Ready(cert) in t {
      assert Ready(cert) in before;
    }
  }

  lemma NothingPlanned(c: Reconciler, t: seq<Effect>, first: nat, on: bool)
    requires Objects(t) == [] && forall e :: e in t ==> !e.Ready?
    ensures AppliesPlan(c, t, first, false, on) && ReadyAsWaited(c, t, first, false)
  {
  }

  lemma NoCleanUpYet(t: seq<Effect>)
    ensures IsCleanUp(t, t, 0)
  {
    assert t + Cleanings(0) == t;
  }

  lemma CertNameIsPlain(cert: ServingCert)
    ensures PlainName(CertName(cert))
  {
  }
}
