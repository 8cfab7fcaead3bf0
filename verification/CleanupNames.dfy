/** What the clean-up deletes and spares, in terms of kinds, namespaces and names, and what it leaves of the objects
    a sync applies. */
module CleanupNames {
  import opened Cleanup
  import opened ClusterObjects
  import opened Fingerprint
  import opened Strings
  import opened SyncTrace
  import R = ManagerRole

  /** The cluster roles that the clean-up spares although "kueue" is in their name. */
  ghost predicate SparedRole(name: string) {
    || Has(name, "kueue-operator")
    || Has(name, "openshift.io")
    || name == "kueue-batch-user-role"
    || name == "kueue-batch-admin-role"
  }

  /** The clean-up has no business with this object. */
  ghost predicate Unrelated(k: ObjKey) {
    match k.kind
    case MutatingWebhook => !Has(k.name, "kueue")
    case ValidatingWebhook => !Has(k.name, "kueue")
    case Certificate => k.ns != "openshift-kueue-operator"
    case Issuer => k.ns != "openshift-kueue-operator"
    case ClusterRole => !Has(k.name, "kueue") || SparedRole(k.name)
    case ClusterRoleBinding => !Has(k.name, "kueue") || Has(k.name, "kueue-operator")
    case ConfigMap => k.ns != "openshift-kueue-operator" || k.name != "kueue-manager-config"
    case Secret =>
      || k.ns != "openshift-kueue-operator"
      || (k.name != "kueue-webhook-server-cert" && k.name != "metrics-server-cert")
    case _ => true
  }

  /** The filters, on the names themselves. */
  lemma CoveredIff(k: ObjKey)
    ensures Covered(k) <==> !Unrelated(k)
  {
    hide Contains, Has, Covered;
    ContainsIff(k.name, "kueue");
    ContainsIff(k.name, "kueue-operator");
    ContainsIff(k.name, "openshift.io");
    CoveredByKind(k);
  }

  lemma CoveredByKind(k: ObjKey)
    ensures Covered(k) <==>
      match k.kind
      case MutatingWebhook => InGroup(0, k)
      case ValidatingWebhook => InGroup(1, k)
      case Certificate => InGroup(2, k)
      case Issuer => InGroup(3, k)
      case ClusterRole => InGroup(4, k)
      case ClusterRoleBinding => InGroup(5, k)
      case ConfigMap => InGroup(6, k)
      case Secret => InGroup(7, k) || InGroup(8, k)
      case _ => false
  {
    hide Contains;
  }

  /** Whatever fails and wherever the clean-up stops, cluster roles, bindings and webhook configurations without
      "kueue" in their name survive it, and so do the spared names, other namespaces and all other kinds. */
  lemma UnrelatedSurvives(objs: map<ObjKey, Owner>, f: Faults, k: ObjKey)
    requires k in objs && Unrelated(k)
    ensures var left := ClearedUpTo(objs, 0, LastGroup(StepsDone(objs, f)), f);
      k in left && left[k] == objs[k]
  {
    CoveredIff(k);
    CleanupTouchesOnlyCovered(objs, LastGroup(StepsDone(objs, f)), f, k);
  }

  /** A step that fails keeps the later ones from starting: after a failed step on webhooks, certificates and issuers,
      cluster roles or bindings, nothing that a later step looks for is gone. */
  lemma LaterStepsAreNotStarted(objs: map<ObjKey, Owner>, f: Faults, k: ObjKey)
    requires k in objs
    ensures var left, done := ClearedUpTo(objs, 0, LastGroup(StepsDone(objs, f)), f), StepsDone(objs, f);
      && (done < 1 && (k.kind == Certificate || k.kind == Issuer) ==> k in left)
      && (done < 2 && k.kind == ClusterRole ==> k in left)
      && (done < 3 && k.kind == ClusterRoleBinding ==> k in left)
      && (done < 4 && (k.kind == ConfigMap || k.kind == Secret) ==> k in left)
  {
    ClearedUpToKeeps(objs, LastGroup(StepsDone(objs, f)), f, k);
    hide ClearedUpTo, StepsDone, Contains;
  }

  // ---- What is left of a sync ----

  /** An item of the plan that the clean-up is responsible for by its kind is covered, but for cluster roles from the
      assets. */
  ghost predicate Handled(k: ObjKey) {
    match k.kind
    case MutatingWebhook => Covered(k)
    case ValidatingWebhook => Covered(k)
    case Certificate => Covered(k)
    case Issuer => Covered(k)
    case ClusterRoleBinding => Covered(k)
    case ConfigMap => Covered(k)
    case Secret => false
    case Other(_) => false
    case _ => true
  }

  ghost predicate AllHandled(items: seq<Item>) {
    forall i :: i in items ==> Handled(i)
  }

  predicate StartsWithKueue(name: string) {
    |name| > 4 && name[0] == 'k' && name[1] == 'u' && name[2] == 'e' && name[3] == 'u' && name[4] == 'e'
  }

  lemma StartHasKueue(name: string)
    requires StartsWithKueue(name)
    ensures Has(name, "kueue")
  {
    assert StandsAt(name, "kueue", 0);
  }

  /** A name with one 'k' that goes on otherwise than "kueue-operator". */
  lemma KueuesBinding(name: string)
    requires StartsWithKueue(name) && |name| > 9 && (name[6] != 'o' || name[9] != 'r')
    requires forall i :: 0 < i < |name| ==> name[i] != 'k'
    ensures Covered(ObjKey(ClusterRoleBinding, "", name))
  {
    CoveredIff(ObjKey(ClusterRoleBinding, "", name));
    StartHasKueue(name);
    hide Covered;
    forall i: nat ensures !StandsAt(name, "kueue-operator", i) {
      if i + 14 <= |name| {
        assert name[i..i + 14][0] == name[i];
        assert name[i..i + 14][6] == name[i + 6];
        assert name[i..i + 14][9] == name[i + 9];
      }
    }
  }

  lemma MonitoringBindingIsCovered()
    ensures Covered(ObjKey(ClusterRoleBinding, "", "kueue-metrics-monitoring-rolebinding"))
  {
    hide Covered;
    KueuesBinding("kueue-metrics-monitoring-rolebinding");
  }

  lemma OpenshiftBindingIsCovered()
    ensures Covered(ObjKey(ClusterRoleBinding, "", "kueue-openshift-cluster-role-binding"))
  {
    hide Covered;
    KueuesBinding("kueue-openshift-cluster-role-binding");
  }

  lemma ProxyBindingIsCovered()
    ensures Covered(ObjKey(ClusterRoleBinding, "", "kueue-proxy-rolebinding"))
  {
    hide Covered;
    KueuesBinding("kueue-proxy-rolebinding");
  }

  lemma ManagerBindingIsCovered()
    ensures Covered(ObjKey(ClusterRoleBinding, "", "kueue-manager-rolebinding"))
  {
    hide Covered;
    KueuesBinding("kueue-manager-rolebinding");
  }

  lemma MetricsBindingIsCovered()
    ensures Covered(ObjKey(ClusterRoleBinding, "", "kueue-metrics-rolebinding"))
  {
    hide Covered;
    KueuesBinding("kueue-metrics-rolebinding");
  }

  lemma MetricsAuthBindingIsCovered()
    ensures Covered(ObjKey(ClusterRoleBinding, "", "kueue-metrics-auth-rolebinding"))
  {
    hide Covered;
    KueuesBinding("kueue-metrics-auth-rolebinding");
  }

  lemma OpenshiftIsHandled()
    ensures AllHandled(OpenshiftItems())
  {
    hide Covered;
    OpenshiftBindingIsCovered();
    ProxyBindingIsCovered();
    ManagerBindingIsCovered();
  }

  lemma MonitoringIsHandled(monitors: bool)
    ensures AllHandled(MonitoringItems(monitors)) && AllHandled(MetricsBindingItems(monitors))
  {
    hide Covered;
    MonitoringBindingIsCovered();
    MetricsBindingIsCovered();
    MetricsAuthBindingIsCovered();
  }

  lemma WebhooksAreHandled(monitors: bool)
    ensures AllHandled(WebhookItems(monitors))
  {
    hide Covered, StartsWithKueue;
    NamesStartWithKueue();
    KueuesWebhook(MutatingWebhook, R.MUTATING);
    KueuesWebhook(ValidatingWebhook, R.VALIDATING);
  }

  lemma NamesStartWithKueue()
    ensures StartsWithKueue(R.MUTATING) && StartsWithKueue(R.VALIDATING)
  {
  }

  lemma KueuesWebhook(kind: Kind, name: string)
    requires (kind == MutatingWebhook || kind == ValidatingWebhook) && StartsWithKueue(name)
    ensures Covered(ObjKey(kind, "", name))
  {
    CoveredIff(ObjKey(kind, "", name));
    StartHasKueue(name);
  }

  lemma RestIsHandled(assets: Assets)
    ensures AllHandled(CertificateItems()) && AllHandled(CoreItems())
    ensures AllHandled(FlowControlItems()) && AllHandled(AssetItems(assets))
  {
    hide R.Installed, R.RolesFor, NamesOf;
    CertificatesAreHandled();
    CoreIsHandled();
    hide CertificateItems, CoreItems, Covered;
  }

  lemma CertificatesAreHandled()
    ensures AllHandled(CertificateItems())
  {
    forall i | i in CertificateItems() ensures Handled(i) {
      assert InGroup(2, i) || InGroup(3, i);
    }
  }

  lemma CoreIsHandled()
    ensures AllHandled(CoreItems())
  {
    assert InGroup(6, MANAGER_CONFIG);
    hide Covered, InGroup;
  }

  lemma PlanIsHandled(monitors: bool, assets: Assets)
    ensures AllHandled(Plan(monitors, assets))
  {
    hide CertificateItems, CoreItems, MonitoringItems, FlowControlItems, AssetItems, OpenshiftItems, MetricsBindingItems;
    hide WebhookItems, Handled;
    RestIsHandled(assets);
    MonitoringIsHandled(monitors);
    OpenshiftIsHandled();
    WebhooksAreHandled(monitors);
    NamespacedRestIsHandled();
  }

  lemma NamespacedRestIsHandled()
    ensures Handled(ObjKey(Service, OPERATOR_NAMESPACE, "kueue-visibility-server"))
    ensures Handled(ObjKey(RoleBinding, SYSTEM_NS, "kueue-visibility-server-auth-reader"))
  {
  }

  /** The kinds the clean-up leaves to the garbage collector or to nobody. */
  predicate LeftAlone(kind: Kind) {
    || kind == ServiceAccount || kind == Role || kind == RoleBinding || kind == Service || kind == APIService
    || kind == PriorityLevelConfiguration || kind == FlowSchema || kind == CRD || kind == NetworkPolicy
    || kind == ServiceMonitor
  }

  /** A clean-up in which every call works takes away everything a sync applies before the Deployment, except the kinds
      it leaves alone and cluster roles without "kueue" in their name or with a spared one. */
  lemma CleanupUndoesSync(monitors: bool, assets: Assets, objs: map<ObjKey, Owner>, f: Faults, k: ObjKey)
    requires AllCallsWork(objs, f) && k in Plan(monitors, assets)
    ensures k in ClearedUpTo(objs, 0, GROUPS, f) <==>
      k in objs && (LeftAlone(k.kind) || (k.kind == ClusterRole && (!Has(k.name, "kueue") || SparedRole(k.name))))
  {
    hide Plan, Covered, AllCallsWork, ClearedUpTo;
    CleanupSucceedsIff(objs, f);
    PlanIsHandled(monitors, assets);
    CoveredIff(k);
    assert Handled(k);
  }
}
