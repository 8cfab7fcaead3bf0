/** The fingerprint of whole syncs: the plan names every object it applies differently, so two Deployments carry
    the same annotations exactly when the syncs that applied them did the same. */
module Rollout {
  import opened ClusterObjects
  import opened Fingerprint
  import opened Strings
  import opened SyncTrace
  import M = MetadataMerge
  import R = ManagerRole

  /** The annotations the Deployment's asset gives the pod template. */
  const TEMPLATE: M.StringMap := map["kubectl.kubernetes.io" + ['/'] + "default-container" := "manager"]

  predicate SameName(a: ObjKey, b: ObjKey) {
    a.kind == b.kind && a.name == b.name
  }

  /** No two of the items have the same kind and name. */
  predicate Distinct(items: seq<Item>) {
    forall i, j :: 0 <= i < j < |items| ==> !SameName(items[i], items[j])
  }

  predicate NoClash(a: seq<Item>, b: seq<Item>) {
    forall x, y :: x in a && y in b ==> !SameName(x, y)
  }

  lemma DistinctAppend(a: seq<Item>, b: seq<Item>)
    requires Distinct(a) && Distinct(b) && NoClash(a, b)
    ensures Distinct(a + b)
  {
    var c := a + b;
    forall i, j | 0 <= i < j < |c| ensures !SameName(c[i], c[j]) {
      assert i < |a| ==> c[i] == a[i] && a[i] in a;
      assert j >= |a| ==> c[j] == b[j - |a|] && b[j - |a|] in b;
    }
  }

  // ---- The fixed part of the plan ----

  /** A place in the plan, read off the kind, the length of the name and one of its letters; all items from the
      asset directories share the last one. */
  function Slot(i: ObjKey): nat {
    var n := |i.name|;
    var c := if n > 6 then i.name[6] else ' ';
    match i.kind
    case Issuer => 0
    case Certificate => if n == 12 then 1 else if n == 13 then 2 else 3
    case ConfigMap => 4
    case ServiceAccount => 5
    case Role => if n == 14 then 10 else if c == 'l' then 6 else 8
    case RoleBinding => if n == 14 then 11 else if n == 35 then 26 else if c == 'l' then 7 else 9
    case Service => if n == 40 then 12 else if n == 23 then 14 else 29
    case APIService => if c == '1' then 15 else 16
    case PriorityLevelConfiguration => 17
    case FlowSchema => 18
    case ClusterRole => if i.name == "kueue-openshift-roles" then 20 else 31
    case ClusterRoleBinding =>
      if n == 36 then (if c == 'm' then 13 else 21)
      else if n == 23 then 22
      else if n == 30 then 25
      else if n > 7 && i.name[7] == 'a' then 23 else 24
    case MutatingWebhook => 27
    case ValidatingWebhook => 28
    case ServiceMonitor => 30
    case _ => 31
  }

  lemma SlotIsOfName(a: ObjKey, b: ObjKey)
    requires SameName(a, b)
    ensures Slot(a) == Slot(b)
  {
  }

  /** In the order of the plan, with places from lo to below hi. */
  predicate Rising(items: seq<Item>, lo: nat, hi: nat) {
    && (forall i :: 0 <= i < |items| ==> lo <= Slot(items[i]) < hi)
    && (forall i, j :: 0 <= i < j < |items| ==> Slot(items[i]) < Slot(items[j]))
  }

  lemma RisingAppend(a: seq<Item>, lo: nat, mid: nat, b: seq<Item>, hi: nat)
    requires Rising(a, lo, mid) && Rising(b, mid, hi) && lo <= mid <= hi
    ensures Rising(a + b, lo, hi)
  {
    hide Slot;
    var c := a + b;
    forall i | 0 <= i < |c| ensures lo <= Slot(c[i]) < hi {
      assert c[i] == if i < |a| then a[i] else b[i - |a|];
    }
    forall i, j | 0 <= i < j < |c| ensures Slot(c[i]) < Slot(c[j]) {
      assert c[i] == if i < |a| then a[i] else b[i - |a|];
      assert c[j] == if j < |a| then a[j] else b[j - |a|];
    }
  }

  lemma RisingIsDistinct(items: seq<Item>, lo: nat, hi: nat)
    requires Rising(items, lo, hi)
    ensures Distinct(items)
  {
    hide Slot, SameName;
    forall i, j | 0 <= i < j < |items| ensures !SameName(items[i], items[j]) {
      if SameName(items[i], items[j]) {
        SlotIsOfName(items[i], items[j]);
      }
    }
  }

  lemma NoClashBySlot(a: seq<Item>, b: seq<Item>)
    requires forall x, y :: x in a && y in b ==> Slot(x) != Slot(y)
    ensures NoClash(a, b)
  {
    hide Slot, SameName;
    forall x, y | x in a && y in b ensures !SameName(x, y) {
      if SameName(x, y) {
        SlotIsOfName(x, y);
      }
    }
  }

  lemma CertificatesRise()
    ensures Rising(CertificateItems(), 0, 4)
  {
  }

  lemma CoreRises()
    ensures Rising(CoreItems(), 4, 10)
  {
    var items := CoreItems();
    FirstCoreRises();
    LastCoreRises();
    assert items == items[..3] + items[3..];
    hide CoreItems, Rising;
    RisingAppend(items[..3], 4, 7, items[3..], 10);
  }

  lemma FirstCoreRises()
    ensures Rising(CoreItems()[..3], 4, 7)
  {
    var i := CoreItems();
    assert i[..3] == [i[0], i[1], i[2]];
    assert Slot(i[0]) == 4 && Slot(i[1]) == 5 && Slot(i[2]) == 6;
    hide CoreItems, Slot;
  }

  lemma LastCoreRises()
    ensures Rising(CoreItems()[3..], 7, 10)
  {
    var i := CoreItems();
    assert i[3..] == [i[3], i[4], i[5]];
    assert Slot(i[3]) == 7 && Slot(i[4]) == 8 && Slot(i[5]) == 9;
    hide CoreItems, Slot;
  }

  lemma MonitoringRises(monitors: bool)
    ensures Rising(MonitoringItems(monitors), 10, 14)
  {
    var i := MonitoringItems(monitors);
    assert monitors ==> Slot(i[0]) == 10 && Slot(i[1]) == 11;
    assert monitors ==> Slot(i[2]) == 12 && Slot(i[3]) == 13;
    assert |i| == if monitors then 4 else 0;
    hide MonitoringItems, Slot;
  }

  lemma FlowControlRises()
    ensures Rising(FlowControlItems(), 15, 19)
  {
    var i := FlowControlItems();
    assert Slot(i[0]) == 15 && Slot(i[1]) == 16;
    assert Slot(i[2]) == 17 && Slot(i[3]) == 18;
    assert |i| == 4;
    hide FlowControlItems, Slot;
  }

  lemma WebhooksRise(monitors: bool)
    ensures Rising(WebhookItems(monitors), 27, 31)
  {
  }

  lemma NamespacedRises(monitors: bool)
    ensures Rising(NamespacedItems(monitors), 4, 15)
  {
    CoreRises();
    MonitoringRises(monitors);
    var last := [ObjKey(Service, OPERATOR_NAMESPACE, "kueue-visibility-server")];
    assert Rising(last, 14, 15);
    hide CoreItems, MonitoringItems, Rising;
    RisingAppend(CoreItems(), 4, 10, MonitoringItems(monitors), 14);
    RisingAppend(CoreItems() + MonitoringItems(monitors), 4, 14, last, 15);
  }

  lemma OpenshiftRises()
    ensures Rising(OpenshiftItems(), 20, 24)
  {
    var i := OpenshiftItems();
    assert Slot(i[0]) == 20 && Slot(i[1]) == 21;
    assert Slot(i[2]) == 22 && Slot(i[3]) == 23;
    assert |i| == 4;
    hide OpenshiftItems, Slot;
  }

  lemma MetricsBindingsRise(monitors: bool)
    ensures Rising(MetricsBindingItems(monitors), 24, 26)
  {
  }

  lemma BindingsRise(monitors: bool)
    ensures Rising(BindingItems(monitors), 20, 27)
  {
    OpenshiftRises();
    MetricsBindingsRise(monitors);
    var last := [ObjKey(RoleBinding, SYSTEM_NS, "kueue-visibility-server-auth-reader")];
    assert Rising(last, 26, 27);
    hide OpenshiftItems, MetricsBindingItems, Rising;
    RisingAppend(OpenshiftItems(), 20, 24, MetricsBindingItems(monitors), 26);
    RisingAppend(OpenshiftItems() + MetricsBindingItems(monitors), 20, 26, last, 27);
  }

  // ---- The asset directories ----

  predicate DistinctNames(names: seq<string>) {
    forall i, j :: 0 <= i < j < |names| ==> names[i] != names[j]
  }

  /** The embedded assets name their objects differently within each directory, and leave the name of the
      cluster role the operator builds itself. */
  predicate DistinctAssets(assets: Assets) {
    var roles := NamesOf(R.RolesFor(assets.clusterRoles, assets.crds));
    && DistinctNames(R.Installed(assets.crds))
    && DistinctNames(assets.networkPolicies)
    && DistinctNames(roles) && "kueue-openshift-roles" !in roles
  }

  lemma NamedIsDistinct(kind: Kind, ns: string, names: seq<string>)
    requires IsHashed(kind) && DistinctNames(names)
    ensures Distinct(Named(kind, ns, names))
    ensures forall i :: i in Named(kind, ns, names) ==> i.kind == kind && i.ns == ns && i.name in names
  {
  }

  lemma AssetsAreDistinct(assets: Assets)
    requires DistinctAssets(assets)
    ensures Distinct(AssetItems(assets)) && forall i :: i in AssetItems(assets) ==> Slot(i) == 31
  {
    var crds, policies := Named(CRD, "", R.Installed(assets.crds)),
                          Named(NetworkPolicy, OPERATOR_NAMESPACE, assets.networkPolicies);
    var roles := Named(ClusterRole, "", NamesOf(R.RolesFor(assets.clusterRoles, assets.crds)));
    NamedIsDistinct(CRD, "", R.Installed(assets.crds));
    NamedIsDistinct(NetworkPolicy, OPERATOR_NAMESPACE, assets.networkPolicies);
    NamedIsDistinct(ClusterRole, "", NamesOf(R.RolesFor(assets.clusterRoles, assets.crds)));
    hide Distinct, Named, NamesOf, R.Installed, R.RolesFor;
    DistinctAppend(crds, policies);
    DistinctAppend(crds + policies, roles);
  }

  // ---- The whole plan ----

  predicate SlotsIn(items: seq<Item>, lo: nat, hi: nat) {
    forall i :: i in items ==> lo <= Slot(i) < hi
  }

  lemma RisingSlots(items: seq<Item>, lo: nat, hi: nat)
    requires Rising(items, lo, hi)
    ensures SlotsIn(items, lo, hi) && Distinct(items)
  {
    hide Slot, Distinct;
    RisingIsDistinct(items, lo, hi);
  }

  /** The plan never applies two objects of one kind and name. */
  lemma PlanIsDistinct(monitors: bool, assets: Assets)
    requires DistinctAssets(assets)
    ensures Distinct(Plan(monitors, assets))
  {
    var c, n, f, a := CertificateItems(), NamespacedItems(monitors), FlowControlItems(), AssetItems(assets);
    var b, w := BindingItems(monitors), WebhookItems(monitors);
    CertificatesRise();
    NamespacedRises(monitors);
    FlowControlRises();
    BindingsRise(monitors);
    WebhooksRise(monitors);
    AssetsAreDistinct(assets);
    assert Plan(monitors, assets) == c + (n + f + a + b + w);
    hide Plan, LatePlan, BasePlan, CertificateItems, NamespacedItems, FlowControlItems, AssetItems, BindingItems, WebhookItems;
    hide Rising, Slot, Distinct, SlotsIn, NoClash;
    PartsAreDistinct(c, n, f, a, b, w);
  }

  lemma PartsAreDistinct(c: seq<Item>, n: seq<Item>, f: seq<Item>, a: seq<Item>, b: seq<Item>, w: seq<Item>)
    requires Rising(c, 0, 4) && Rising(n, 4, 15) && Rising(f, 15, 19) && Rising(b, 20, 27) && Rising(w, 27, 31)
    requires Distinct(a) && forall i :: i in a ==> Slot(i) == 31
    ensures Distinct(c + (n + f + a + b + w))
  {
    RisingAppend(n, 4, 15, f, 19);
    RisingAppend(b, 20, 27, w, 31);
    RisingSlots(c, 0, 4);
    RisingSlots(n + f, 4, 19);
    RisingSlots(b + w, 20, 31);
    hide Rising, Slot, Distinct, NoClash;
    NoClashBySlot(n + f, a);
    DistinctAppend(n + f, a);
    NoClashBySlot(n + f + a, b + w);
    DistinctAppend(n + f + a, b + w);
    assert n + f + a + (b + w) == n + f + a + b + w;
    NoClashBySlot(c, n + f + a + (b + w));
    DistinctAppend(c, n + f + a + (b + w));
  }

  // ---- Two rollouts ----

  /** Switching monitoring on only adds items. */
  lemma MonitoringAddsItems(monitors: bool, assets: Assets)
    ensures forall i :: i in Plan(monitors, assets) ==> i in Plan(true, assets)
  {
    if !monitors {
      hide CertificateItems, CoreItems, FlowControlItems, AssetItems, OpenshiftItems;
      assert WebhookItems(false) <= WebhookItems(true);
    }
  }

  lemma PlannedOnce(objs: seq<Object>, monitors: bool, assets: Assets)
    requires DistinctAssets(assets) && Items(objs) == Plan(monitors, assets)
    ensures OneObjectPerName(objs)
  {
    hide Plan, Distinct, DistinctAssets, KeyOf, Prefix, Items;
    PlanIsDistinct(monitors, assets);
    forall x, y | x in objs && y in objs && KeyOf(x.item) == KeyOf(y.item) ensures x == y {
      KeyIsReversible(x.item, y.item);
      var i :| 0 <= i < |objs| && objs[i] == x;
      var j :| 0 <= j < |objs| && objs[j] == y;
      ItemAt(objs, i);
      ItemAt(objs, j);
      AtOnePlace(Items(objs), i, j);
    }
  }

  lemma ItemAt(objs: seq<Object>, i: nat)
    requires i < |objs|
    ensures |Items(objs)| == |objs| && Items(objs)[i] == objs[i].item
  {
  }

  lemma AtOnePlace(items: seq<Item>, i: nat, j: nat)
    requires Distinct(items) && i < |items| && j < |items| && SameName(items[i], items[j])
    ensures i == j
  {
    assert SameName(items[j], items[i]);
  }

  lemma PlannedInOnePlace(a: seq<Object>, m: bool, b: seq<Object>, n: bool, assets: Assets)
    requires DistinctAssets(assets) && Items(a) == Plan(m, assets) && Items(b) == Plan(n, assets)
    ensures SamePlaces(a, b)
  {
    MonitoringAddsItems(m, assets);
    MonitoringAddsItems(n, assets);
    PlanIsDistinct(true, assets);
    hide Plan, Distinct, DistinctAssets, KeyOf, Items, Prefix;
    var all := Plan(true, assets);
    forall x, y | x in a && y in b && KeyOf(x.item) == KeyOf(y.item) ensures x.item == y.item {
      KeyIsReversible(x.item, y.item);
      InItems(a, x);
      InItems(b, y);
      assert x.item in all && y.item in all;
      NamedOnce(all, x.item, y.item);
    }
  }

  lemma NamedOnce(items: seq<Item>, x: Item, y: Item)
    requires Distinct(items) && x in items && y in items && SameName(x, y)
    ensures x == y
  {
    var i :| 0 <= i < |items| && items[i] == x;
    var j :| 0 <= j < |items| && items[j] == y;
    AtOnePlace(items, i, j);
  }

  lemma InItems(objs: seq<Object>, o: Object)
    requires o in objs
    ensures o.item in Items(objs)
  {
    var i :| 0 <= i < |objs| && objs[i] == o;
    assert Items(objs)[i] == o.item;
  }

  lemma PrefixLength(kind: Kind)
    requires IsHashed(kind)
    ensures |Prefix(kind)| != 21
  {
  }

  lemma DefaultContainerHasNoSlash()
    ensures '/' !in "kubectl.kubernetes.io" && |"kubectl.kubernetes.io"| == 21
  {
  }

  lemma TemplateIsApart(hash: Hash, generation: nat, objs: seq<Object>)
    ensures Apart(TEMPLATE, Annotations(hash, generation, objs))
  {
    var m := Annotations(hash, generation, objs);
    AnnotationsHold(hash, generation, objs);
    DefaultContainerHasNoSlash();
    GroupHasNoSlash();
    hide Annotations, Prefix;
    forall k | k in m ensures k !in TEMPLATE {
      if k == CLUSTER_KEY {
        ClusterKeyIsNotTemplates();
      } else {
        var o :| o in objs && Explains(hash, o, m, k);
        ItemKeyIsNotTemplates(o.item);
      }
    }
  }

  lemma ClusterKeyIsNotTemplates()
    ensures CLUSTER_KEY !in TEMPLATE
  {
    var key := "kubectl.kubernetes.io" + ['/'] + "default-container";
    DefaultContainerHasNoSlash();
    GroupHasNoSlash();
    PrefixIsShort(Issuer);
    if CLUSTER_KEY == key {
      JoinIsInjective(OPERATOR_GROUP, "cluster", "kubectl.kubernetes.io", "default-container", '/');
    }
  }

  lemma ItemKeyIsNotTemplates(item: Item)
    ensures KeyOf(item) !in TEMPLATE
  {
    var key := "kubectl.kubernetes.io" + ['/'] + "default-container";
    DefaultContainerHasNoSlash();
    PrefixHasNoSlash(item.kind);
    PrefixLength(item.kind);
    hide Prefix;
    if KeyOf(item) == key {
      JoinIsInjective(Prefix(item.kind), item.name, "kubectl.kubernetes.io", "default-container", '/');
    }
  }

  /** The i-th effect of a sync's trace is the Deployment. */
  predicate DeploysAt(t: seq<Effect>, i: nat) {
    i < |t| && t[i].DeploymentApplied?
  }

  /** The rollout fingerprint, sync to sync: two Deployments applied from the same assets give the pod template
      equal annotations, so that no new rollout starts, if and only if the two syncs saw the same generation of the
      CR and applied the same objects with the same hashed content. */
  lemma NoRolloutIffNothingChanged(c: Reconciler, t: seq<Effect>, i: nat, d: Reconciler, u: seq<Effect>, j: nat)
    requires c.hash == d.hash && CollisionFree(c.hash) && c.template == d.template == TEMPLATE
    requires c.assets == d.assets && DistinctAssets(c.assets)
    requires DeploymentIsLast(c, t) && DeploysAt(t, i) && DeploymentIsLast(d, u) && DeploysAt(u, j)
    ensures t[i].annotations == u[j].annotations <==>
            c.generation == d.generation && SameObjects(Objects(t[..i]), Objects(u[..j]))
  {
    var a, b := Objects(t[..i]), Objects(u[..j]);
    hide Plan, Objects, Items, Annotations, SamePlaces, OneObjectPerName, Apart, SameObjects;
    PlannedOnce(a, c.monitors, c.assets);
    PlannedOnce(b, d.monitors, d.assets);
    PlannedInOnePlace(a, c.monitors, b, d.monitors, c.assets);
    TemplateIsApart(c.hash, c.generation, a);
    TemplateIsApart(d.hash, d.generation, b);
    FingerprintIsFaithful(TEMPLATE, c.hash, c.generation, a, d.generation, b);
  }

  // ---- Two rollouts, in terms of what the server returned ----

  lemma {:induction false} ObjectsStop(t: seq<Effect>, i: nat)
    requires i <= |t| && forall j :: i <= j < |t| ==> !t[j].Applied?
    ensures Objects(t) == Objects(t[..i])
    decreases |t|
  {
    if i == |t| {
      assert t[..i] == t;
    } else {
      var n := |t| - 1;
      ObjectsStop(t[..n], i);
      assert t[..n][..i] == t[..i];
    }
  }

  /** The objects on the trace are those of the plan, each with the content its own call returned. */
  ghost predicate Answered(c: Reconciler, t: seq<Effect>, first: nat) {
    var plan, objs := Plan(c.monitors, c.assets), Objects(t);
    && |objs| <= |plan|
    && forall k: nat :: k < |objs| ==> objs[k] == Object(plan[k], c.answers(first + CallOf(k)).content)
  }

  /** The server returned the same content for every object of the plan. */
  ghost predicate SameContents(c: Reconciler, first: nat, d: Reconciler, other: nat) {
    forall k: nat :: k < |Plan(c.monitors, c.assets)| ==>
      c.answers(first + CallOf(k)).content == d.answers(other + CallOf(k)).content
  }

  const SERVICE_MONITOR := ObjKey(ServiceMonitor, OPERATOR_NAMESPACE, "kueue-metrics")

  lemma OnlyMonitoringHasMonitor(monitors: bool, assets: Assets)
    ensures SERVICE_MONITOR in Plan(monitors, assets) <==> monitors
  {
    hide CertificateItems, CoreItems, MonitoringItems, FlowControlItems, AssetItems, OpenshiftItems, MetricsBindingItems;
    hide WebhookItems;
    FixedItemsAreNoMonitors(monitors);
    OtherItemsAreNoMonitors(monitors, assets);
  }

  lemma OtherItemsAreNoMonitors(monitors: bool, assets: Assets)
    ensures SERVICE_MONITOR !in MonitoringItems(monitors) && SERVICE_MONITOR !in MetricsBindingItems(monitors)
    ensures SERVICE_MONITOR !in AssetItems(assets)
  {
    hide R.Installed, R.RolesFor, NamesOf;
  }

  lemma FixedItemsAreNoMonitors(monitors: bool)
    ensures SERVICE_MONITOR !in CertificateItems() && SERVICE_MONITOR !in CoreItems()
    ensures SERVICE_MONITOR !in FlowControlItems() && SERVICE_MONITOR !in OpenshiftItems()
    ensures SERVICE_MONITOR in WebhookItems(monitors) <==> monitors
  {
    assert monitors ==> WebhookItems(monitors)[3] == SERVICE_MONITOR;
  }

  lemma SameObjectsSameContents(items: seq<Item>, a: seq<Object>, b: seq<Object>)
    requires Distinct(items) && Items(a) == items == Items(b)
    ensures SameObjects(a, b) <==> forall k :: 0 <= k < |items| ==> a[k].content == b[k].content
  {
    hide SameName;
    forall k | 0 <= k < |items| ensures a[k].item == items[k] == b[k].item {
      ItemAt(a, k);
      ItemAt(b, k);
    }
    if SameObjects(a, b) {
      forall k | 0 <= k < |items| ensures a[k].content == b[k].content {
        assert a[k] in a;
        var j :| 0 <= j < |b| && b[j] == a[k];
        SameNameIfEqual(items[j], items[k]);
        AtOnePlace(items, j, k);
      }
    }
    if forall k :: 0 <= k < |items| ==> a[k].content == b[k].content {
      assert a == b;
    }
  }

  lemma SameNameIfEqual(a: Item, b: Item)
    requires a == b
    ensures SameName(a, b)
  {
  }

  /** A rollout starts exactly when the CR's generation, the monitoring flag or the content the server returned for
      some object of the plan has changed. */
  lemma RolloutIffAnswersDiffer(
    c: Reconciler, t: seq<Effect>, i: nat, first: nat, d: Reconciler, u: seq<Effect>, j: nat, other: nat
  )
    requires c.hash == d.hash && CollisionFree(c.hash) && c.template == d.template == TEMPLATE
    requires c.assets == d.assets && DistinctAssets(c.assets)
    requires DeploymentIsLast(c, t) && DeploysAt(t, i) && Answered(c, t, first)
    requires DeploymentIsLast(d, u) && DeploysAt(u, j) && Answered(d, u, other)
    ensures t[i].annotations == u[j].annotations <==>
            c.generation == d.generation && c.monitors == d.monitors && SameContents(c, first, d, other)
  {
    hide *;
    NoRolloutIffNothingChanged(c, t, i, d, u, j);
    DeploysAll(c, t, i);
    DeploysAll(d, u, j);
    if c.monitors == d.monitors {
      PlanIsDistinct(c.monitors, c.assets);
      SameObjectsSameContents(Plan(c.monitors, c.assets), Objects(t), Objects(u));
      ContentsAre(c, t, first, d, u, other);
    } else {
      OnlyMonitoringHasMonitor(c.monitors, c.assets);
      OnlyMonitoringHasMonitor(d.monitors, d.assets);
      SameItems(Objects(t), Objects(u), SERVICE_MONITOR);
    }
  }

  lemma DeploysAll(c: Reconciler, t: seq<Effect>, i: nat)
    requires DeploymentIsLast(c, t) && DeploysAt(t, i)
    ensures Objects(t[..i]) == Objects(t) && Items(Objects(t)) == Plan(c.monitors, c.assets)
  {
    hide Plan, Items, Objects, Annotations;
    ObjectsStop(t, i);
  }

  lemma ContentsAre(c: Reconciler, t: seq<Effect>, first: nat, d: Reconciler, u: seq<Effect>, other: nat)
    requires c.monitors == d.monitors && c.assets == d.assets
    requires Answered(c, t, first) && Items(Objects(t)) == Plan(c.monitors, c.assets)
    requires Answered(d, u, other) && Items(Objects(u)) == Plan(d.monitors, d.assets)
    ensures |Objects(t)| == |Plan(c.monitors, c.assets)| == |Objects(u)|
    ensures SameContents(c, first, d, other) <==>
      forall k :: 0 <= k < |Plan(c.monitors, c.assets)| ==> Objects(t)[k].content == Objects(u)[k].content
  {
    ItemsCount(Objects(t));
    ItemsCount(Objects(u));
    hide Plan, Objects, Items, CallOf;
  }

  lemma ItemsCount(objs: seq<Object>)
    ensures |Items(objs)| == |objs|
  {
  }

  lemma SameItems(a: seq<Object>, b: seq<Object>, item: Item)
    ensures SameObjects(a, b) ==> (item in Items(a) <==> item in Items(b))
  {
    if SameObjects(a, b) {
      if item in Items(a) {
        var k :| 0 <= k < |Items(a)| && Items(a)[k] == item;
        InItems(b, a[k]);
      }
      if item in Items(b) {
        var k :| 0 <= k < |Items(b)| && Items(b)[k] == item;
        InItems(a, b[k]);
      }
    }
  }

  /** What a sync is given besides its reconciler. */
  datatype Input = Input(cachedFinalizer: bool, deleting: bool, reread: bool, tls: Tls) {
    /** The first call after the finalizer step. */
    function First(answers: nat -> Answer, calls: nat): nat {
      calls + FinalizerCalls(answers, calls, cachedFinalizer)
    }
  }

  method RunSync(c: Reconciler, x: Input)
    requires c.trace == [] && PlainAssets(c.assets)
    modifies c
    ensures DeploymentIsLast(c, c.trace) && Answered(c, c.trace, x.First(c.answers, old(c.calls)))
  {
    hide DeploymentIsLast, Plan, LatePlan, Objects, Guarded, Annotations, IsCleanUp, WentWell, Works, PlainAssets, CallOf;
    hide ReadyAsWaited, AppliesPlan;
    ghost var first := x.First(c.answers, c.calls);
    var _ := c.Sync(x.cachedFinalizer, x.deleting, x.reread, x.tls);
    PlanIsAnswered(c, c.trace, first);
  }

  lemma PlanIsAnswered(c: Reconciler, t: seq<Effect>, first: nat)
    requires exists going, on :: AppliesPlan(c, t, first, going, on)
    ensures Answered(c, t, first)
  {
    hide Plan, Objects, CallOf, WentWell;
    var going, on :| AppliesPlan(c, t, first, going, on);
    forall k: nat | k < |Objects(t)|
      ensures Objects(t)[k] == Object(Plan(c.monitors, c.assets)[k], c.answers(first + CallOf(k)).content)
    {
      assert AppliesAt(c, t, first, going, on, k);
    }
  }

  /** Two syncs, end to end: if both get to the Deployment, its pod template differs exactly as above. */
  method CompareSyncs(c: Reconciler, x: Input, d: Reconciler, y: Input)
    requires c != d && c.trace == [] && d.trace == []
    requires c.hash == d.hash && CollisionFree(c.hash) && c.template == d.template == TEMPLATE
    requires c.assets == d.assets && DistinctAssets(c.assets) && PlainAssets(c.assets)
    modifies c, d
    ensures forall i: nat, j: nat :: DeploysAt(c.trace, i) && DeploysAt(d.trace, j) ==>
      (c.trace[i].annotations == d.trace[j].annotations <==>
         && c.generation == d.generation && c.monitors == d.monitors
         && SameContents(c, x.First(c.answers, old(c.calls)), d, y.First(d.answers, old(d.calls))))
  {
    hide DeploymentIsLast, Answered, PlainAssets, DistinctAssets, CollisionFree, SameContents, Input.First;
    ghost var first, other := x.First(c.answers, c.calls), y.First(d.answers, d.calls);
    RunSync(c, x);
    RunSync(d, y);
    forall i: nat, j: nat | DeploysAt(c.trace, i) && DeploysAt(d.trace, j)
      ensures c.trace[i].annotations == d.trace[j].annotations <==>
        c.generation == d.generation && c.monitors == d.monitors && SameContents(c, first, d, other)
    {
      RolloutIffAnswersDiffer(c, c.trace, i, first, d, d.trace, j, other);
    }
  }
}
