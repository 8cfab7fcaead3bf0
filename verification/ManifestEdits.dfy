/** The in-place edits hack/sync_manifests.py makes to a Kueue manifest before it is filed. */
module ManifestEdits {
  import opened Options
  import C = ClusterObjects

  const KUEUE_NS := "kueue-system"
  const NAME_KEY := "kubernetes.io/metadata.name"
  const MUTATING := "MutatingWebhookConfiguration"
  const VALIDATING := "ValidatingWebhookConfiguration"
  const DEPLOYMENT := "Deployment"
  const MANAGER := "kueue-controller-manager"

  /** The kinds whose namespace is rewritten. */
  const NAMESPACED := [DEPLOYMENT, "Service", "ServiceAccount"]

  datatype Expr = Expr(key: string, op: string, values: Option<seq<string>>, rest: string)

  // `exprs` is None for a selector without match expressions.
  datatype NsSelector = NsSelector(exprs: Option<seq<Expr>>, rest: string)

  datatype Webhook = Webhook(
    selector: Option<NsSelector>, serviceNs: Option<string>, reinvocation: Option<string>, rest: string)

  datatype Container = Container(name: string, image: string, rest: string)

  datatype Version = Version(name: string, storage: bool)

  /** A manifest; the pod template's parts are empty except in a Deployment, and `rest` is all that no edit
      looks at. */
  datatype Manifest = Manifest(
    kind: string, hasMetadata: bool, name: string, ns: Option<string>, versions: seq<Version>,
    webhooks: Option<seq<Webhook>>, containers: seq<Container>, podLabels: map<string, string>, rest: string)

  // ---- The edits, on values ----

  function EditedValue(v: string): string {
    if v == KUEUE_NS then C.OPERATOR_NAMESPACE else v
  }

  function EditedValues(values: seq<string>): seq<string> {
    seq(|values|, i requires 0 <= i < |values| => EditedValue(values[i]))
  }

  predicate ExcludesByName(e: Expr) {
    e.key == NAME_KEY && e.op == "NotIn"
  }

  function EditedExpr(e: Expr): Expr {
    if ExcludesByName(e) then e.(values := Some(EditedValues(if e.values.Some? then e.values.value else []))) else e
  }

  function EditedExprs(exprs: seq<Expr>): seq<Expr> {
    seq(|exprs|, i requires 0 <= i < |exprs| => EditedExpr(exprs[i]))
  }

  function EditedSelector(s: Option<NsSelector>): Option<NsSelector> {
    if s.Some? && s.value.exprs.Some? then Some(s.value.(exprs := Some(EditedExprs(s.value.exprs.value)))) else s
  }

  function EditedWebhook(w: Webhook, mutating: bool): Webhook {
    w.(selector := EditedSelector(w.selector),
       reinvocation := if mutating then Some("IfNeeded") else w.reinvocation,
       serviceNs := if w.serviceNs == Some(KUEUE_NS) then Some(C.OPERATOR_NAMESPACE) else w.serviceNs)
  }

  function EditedWebhooks(ws: seq<Webhook>, mutating: bool): seq<Webhook> {
    seq(|ws|, i requires 0 <= i < |ws| => EditedWebhook(ws[i], mutating))
  }

  function EditedContainers(cs: seq<Container>): seq<Container> {
    seq(|cs|, i requires 0 <= i < |cs| => if cs[i].name == "manager" then cs[i].(image := "${IMAGE}") else cs[i])
  }

  predicate IsWebhookConfiguration(kind: string) {
    kind == VALIDATING || kind == MUTATING
  }

  predicate IsManager(m: Manifest) {
    m.kind == DEPLOYMENT && m.name == MANAGER
  }

  function Edited(m: Manifest): Manifest {
    m.(webhooks := if IsWebhookConfiguration(m.kind) && m.webhooks.Some?
                   then Some(EditedWebhooks(m.webhooks.value, m.kind == MUTATING)) else m.webhooks,
       ns := if m.kind in NAMESPACED && m.hasMetadata then Some(C.OPERATOR_NAMESPACE) else m.ns,
       containers := if IsManager(m) then EditedContainers(m.containers) else m.containers,
       podLabels := if IsManager(m) then m.podLabels["app.openshift.io/name" := "kueue"] else m.podLabels)
  }

  // ---- The edits, as the script makes them ----

  method EditSelector(s: NsSelector) returns (edited: NsSelector)
    ensures Some(edited) == EditedSelector(Some(s))
  {
    edited := s;
    if s.exprs.Some? {
      var exprs := s.exprs.value;
      for i := 0 to |exprs|
        invariant |exprs| == |s.exprs.value|
        invariant forall k :: 0 <= k < |exprs| ==>
          exprs[k] == if k < i then EditedExpr(s.exprs.value[k]) else s.exprs.value[k]
      {
        if exprs[i].key == NAME_KEY && exprs[i].op == "NotIn" {
          var values := if exprs[i].values.Some? then exprs[i].values.value else [];
          exprs := exprs[i := exprs[i].(values := Some(EditedValues(values)))];
        }
      }
      edited := s.(exprs := Some(exprs));
      assert exprs == EditedExprs(s.exprs.value);
    }
  }

  class Document {
    var it: Manifest

    constructor (it: Manifest)
      ensures this.it == it
    {
      this.it := it;
    }

    method EditWebhooks()
      requires IsWebhookConfiguration(it.kind)
      modifies this
      ensures it == old(it).(webhooks :=
        if old(it).webhooks.Some? then Some(EditedWebhooks(old(it).webhooks.value, old(it).kind == MUTATING)) else None)
    {
      if it.webhooks.Some? {
        var ws := it.webhooks.value;
        for i := 0 to |ws|
          invariant it == old(it) && |ws| == |it.webhooks.value|
          invariant forall k :: 0 <= k < |ws| ==>
            ws[k] == if k < i then EditedWebhook(it.webhooks.value[k], it.kind == MUTATING) else it.webhooks.value[k]
        {
          var w := ws[i];
          if w.selector.Some? {
            var s := EditSelector(w.selector.value);
            w := w.(selector := Some(s));
          }
          if it.kind == MUTATING {
            w := w.(reinvocation := Some("IfNeeded"));
          }
          if w.serviceNs == Some(KUEUE_NS) {
            w := w.(serviceNs := Some(C.OPERATOR_NAMESPACE));
          }
          ws := ws[i := w];
        }
        it := it.(webhooks := Some(ws));
        assert ws == EditedWebhooks(old(it).webhooks.value, it.kind == MUTATING);
      }
    }

    method EditManager()
      requires IsManager(it)
      modifies this
      ensures it == old(it).(containers := EditedContainers(old(it).containers),
                             podLabels := old(it).podLabels["app.openshift.io/name" := "kueue"])
    {
      var cs := it.containers;
      for i := 0 to |cs|
        invariant it == old(it) && |cs| == |it.containers|
        invariant forall k :: 0 <= k < |cs| ==>
          cs[k] == if k < i then EditedContainers(it.containers)[k] else it.containers[k]
      {
        if cs[i].name == "manager" {
          cs := cs[i := cs[i].(image := "${IMAGE}")];
        }
      }
      assert cs == EditedContainers(it.containers);
      it := it.(containers := cs);
      it := it.(podLabels := it.podLabels["app.openshift.io/name" := "kueue"]);
    }

    method Edit()
      modifies this
      ensures it == Edited(old(it))
    {
      if IsWebhookConfiguration(it.kind) {
        EditWebhooks();
      }
      if it.kind in NAMESPACED && it.hasMetadata {
        it := it.(ns := Some(C.OPERATOR_NAMESPACE));
      }
      if it.kind == DEPLOYMENT && it.name == MANAGER {
        EditManager();
      }
    }
  }

  // ---- What the edits amount to ----

  lemma ExprEditedTwice(e: Expr)
    ensures EditedExpr(EditedExpr(e)) == EditedExpr(e)
  {
    if ExcludesByName(e) {
      var values := EditedExpr(e).values.value;
      assert EditedValues(values) == values;
    }
  }

  lemma WebhookEditedTwice(w: Webhook, mutating: bool)
    ensures EditedWebhook(EditedWebhook(w, mutating), mutating) == EditedWebhook(w, mutating)
  {
    var s := EditedSelector(w.selector);
    if s.Some? && s.value.exprs.Some? {
      var exprs := s.value.exprs.value;
      forall i | 0 <= i < |exprs| ensures EditedExpr(exprs[i]) == exprs[i] {
        ExprEditedTwice(w.selector.value.exprs.value[i]);
      }
      assert EditedExprs(exprs) == exprs;
    }
  }

  /** Editing an edited manifest changes nothing, so the script may be given its own output. */
  lemma EditIsIdempotent(m: Manifest)
    ensures Edited(Edited(m)) == Edited(m)
  {
    var once := Edited(m);
    if IsWebhookConfiguration(m.kind) && m.webhooks.Some? {
      var ws := once.webhooks.value;
      forall i | 0 <= i < |ws| ensures EditedWebhook(ws[i], m.kind == MUTATING) == ws[i] {
        WebhookEditedTwice(m.webhooks.value[i], m.kind == MUTATING);
      }
      assert EditedWebhooks(ws, m.kind == MUTATING) == ws;
    }
    if IsManager(m) {
      assert EditedContainers(once.containers) == once.containers;
    }
  }

  /** After the edits no webhook calls into Kueue's upstream namespace, and none exempts it by name. */
  lemma WebhooksAreMoved(m: Manifest, i: nat)
    requires IsWebhookConfiguration(m.kind) && m.webhooks.Some? && i < |m.webhooks.value|
    ensures var before, after := m.webhooks.value[i], Edited(m).webhooks.value[i];
      && after.serviceNs != Some(KUEUE_NS)
      && (before.selector.Some? && before.selector.value.exprs.Some? ==>
            after.selector.Some? && after.selector.value.exprs.Some?
            && forall e :: e in after.selector.value.exprs.value && ExcludesByName(e) ==>
                 e.values.Some? && KUEUE_NS !in e.values.value)
  {
    var s := m.webhooks.value[i].selector;
    if s.Some? && s.value.exprs.Some? {
      var exprs := EditedExprs(s.value.exprs.value);
      forall e | e in exprs && ExcludesByName(e) ensures e.values.Some? && KUEUE_NS !in e.values.value {
        var k :| 0 <= k < |exprs| && exprs[k] == e;
        ValuesAreMoved(if s.value.exprs.value[k].values.Some? then s.value.exprs.value[k].values.value else []);
      }
    }
  }

  lemma ValuesAreMoved(values: seq<string>)
    ensures KUEUE_NS !in EditedValues(values)
    ensures KUEUE_NS in values ==> C.OPERATOR_NAMESPACE in EditedValues(values)
    ensures forall v :: v in values && v != KUEUE_NS ==> v in EditedValues(values)
  {
    var edited := EditedValues(values);
    forall v | v in values ensures EditedValue(v) in edited {
      var i :| 0 <= i < |values| && values[i] == v;
      assert edited[i] == EditedValue(v);
    }
    assert C.OPERATOR_NAMESPACE[0] != KUEUE_NS[0];
  }

  /** The edits leave alone what decides where a manifest is filed. */
  lemma EditKeepsTheFile(m: Manifest)
    ensures Edited(m).kind == m.kind && Edited(m).name == m.name && Edited(m).versions == m.versions
  {
  }

  /** What the edits do to a manifest outside its webhooks: the namespace of deployments, services and service accounts,
      and the manager's image and pod label; nothing else. */
  lemma FieldsAreSet(m: Manifest)
    ensures Edited(m).ns ==
      if m.kind in ["Deployment", "Service", "ServiceAccount"] && m.hasMetadata then Some("openshift-kueue-operator") else m.ns
    ensures m.kind == "Deployment" && m.name == "kueue-controller-manager" ==>
      && |Edited(m).containers| == |m.containers|
      && (forall i :: 0 <= i < |m.containers| ==>
            Edited(m).containers[i] ==
            if m.containers[i].name == "manager" then m.containers[i].(image := "${IMAGE}") else m.containers[i])
      && "app.openshift.io/name" in Edited(m).podLabels && Edited(m).podLabels["app.openshift.io/name"] == "kueue"
      && (forall l :: l in m.podLabels && l != "app.openshift.io/name" ==>
            l in Edited(m).podLabels && Edited(m).podLabels[l] == m.podLabels[l])
    ensures m.kind != "Deployment" || m.name != "kueue-controller-manager" ==>
      Edited(m).containers == m.containers && Edited(m).podLabels == m.podLabels
    ensures Edited(m).rest == m.rest && Edited(m).hasMetadata == m.hasMetadata && Edited(m).name == m.name
    ensures m.kind !in ["ValidatingWebhookConfiguration", "MutatingWebhookConfiguration"] ==> Edited(m).webhooks == m.webhooks
  {
  }

  /** What they do to a webhook: mutating ones may be called again, the service's namespace is moved, and of the selector
      only the values of name exclusions change. */
  lemma WebhookFieldsAreSet(m: Manifest, i: nat)
    requires m.kind in ["ValidatingWebhookConfiguration", "MutatingWebhookConfiguration"]
    requires m.webhooks.Some? && i < |m.webhooks.value|
    ensures Edited(m).webhooks.Some? && |Edited(m).webhooks.value| == |m.webhooks.value|
    ensures var before, after := m.webhooks.value[i], Edited(m).webhooks.value[i];
      && after.rest == before.rest
      && after.reinvocation == (if m.kind == "MutatingWebhookConfiguration" then Some("IfNeeded") else before.reinvocation)
      && after.serviceNs ==
         (if before.serviceNs == Some("kueue-system") then Some("openshift-kueue-operator") else before.serviceNs)
      && (before.selector.None? || before.selector.value.exprs.None? ==> after.selector == before.selector)
      && (before.selector.Some? && before.selector.value.exprs.Some? ==>
            && after.selector.Some? && after.selector.value.exprs.Some?
            && after.selector.value.rest == before.selector.value.rest
            && var olds, news := before.selector.value.exprs.value, after.selector.value.exprs.value;
               && |news| == |olds|
               && forall j :: 0 <= j < |olds| ==> SetsValues(olds[j], news[j]))
  {
    var s := m.webhooks.value[i].selector;
    if s.Some? && s.value.exprs.Some? {
      var exprs := s.value.exprs.value;
      forall j | 0 <= j < |exprs| ensures SetsValues(exprs[j], EditedExprs(exprs)[j]) {
      }
    }
  }

  /** An exclusion by namespace name has kueue-system replaced, in place; any other expression stays. */
  predicate SetsValues(before: Expr, after: Expr) {
    if before.key == "kubernetes.io/metadata.name" && before.op == "NotIn" then
      && after.key == before.key && after.op == before.op && after.rest == before.rest && after.values.Some?
      && var olds := if before.values.Some? then before.values.value else [];
         && |after.values.value| == |olds|
         && forall i :: 0 <= i < |olds| ==>
              after.values.value[i] == if olds[i] == "kueue-system" then "openshift-kueue-operator" else olds[i]
    else after == before
  }
}
