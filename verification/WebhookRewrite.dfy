/** Rewriting a webhook configuration for the enabled frameworks. The validating and the mutating
    form differ only in the letter their webhook names start with. */
module WebhookRewrite {
  import opened Options
  import opened Strings
  import opened Selectors

  const MANAGED := "kueue.openshift.io/managed"
  const SUFFIX := ".kb.io"
  const CORE := "kueue.x-k8s.io/"

  /** Which name suffix belongs to which framework. */
  type Table = map<string, string>

  const REGISTERED: Table := map[
    "BatchJob" := "job",
    "MPIJob" := "mpijob",
    "RayJob" := "rayjob",
    "RayCluster" := "raycluster",
    "RayService" := "rayservice",
    "JobSet" := "jobset",
    "PaddleJob" := "paddlejob",
    "PyTorchJob" := "pytorchjob",
    "TFJob" := "tfjob",
    "XGBoostJob" := "xgboostjob",
    "JaxJob" := "jaxjob",
    "Pod" := "pod",
    "Deployment" := "deployment",
    "StatefulSet" := "statefulset",
    "TrainJob" := "trainjob",
    "LeaderWorkerSet" := "leaderworkerset",
    "kueue.x-k8s.io/clusterqueue" := "clusterqueue",
    "kueue.x-k8s.io/workload" := "workload",
    "kueue.x-k8s.io/resourceflavor" := "resourceflavor",
    "kueue.x-k8s.io/cohort" := "cohort",
    "AppWrapper" := "appwrapper",
    "SparkApplication" := "sparkapplication"
  ]

  /** No two frameworks share a suffix, so a lookup by suffix does not depend on map order. */
  ghost predicate Injective(table: Table) {
    forall f, g :: f in table && g in table && table[f] == table[g] ==> f == g
  }

  // ---- The rewriting, on values ----

  datatype Hook = Hook(name: string, selector: Option<Selector>)

  function NameSuffix(letter: char, name: string): string {
    TrimSuffix(TrimPrefix(name, [letter]), SUFFIX)
  }

  /** Parsing undoes the naming scheme, whatever the suffix is. */
  lemma ParsingUndoesNaming(letter: char, suffix: string)
    ensures NameSuffix(letter, [letter] + suffix + SUFFIX) == suffix
  {
    var name := [letter] + suffix + SUFFIX;
    assert name[..1] == [letter];
    assert TrimPrefix(name, [letter]) == suffix + SUFFIX;
    assert (suffix + SUFFIX)[|suffix|..] == SUFFIX;
  }

  ghost predicate Known(table: Table, letter: char, name: string) {
    exists f :: f in table && table[f] == NameSuffix(letter, name)
  }

  ghost function FrameworkOf(table: Table, letter: char, name: string): (f: string)
    requires Known(table, letter, name)
    ensures f in table && table[f] == NameSuffix(letter, name)
  {
    var f :| f in table && table[f] == NameSuffix(letter, name);
    f
  }

  predicate NeedsPods(framework: string) {
    framework == "LeaderWorkerSet" || framework == "StatefulSet" || framework == "Deployment"
  }

  /** The enabled frameworks: the listed ones, Pod where one of them needs it, and all core keys. */
  ghost predicate InClosure(table: Table, listed: seq<string>, f: string) {
    || f in listed
    || (f == "Pod" && exists g :: g in listed && NeedsPods(g))
    || (f in table && HasPrefix(f, CORE))
  }

  predicate IsClusterScoped(framework: string) {
    || framework == "kueue.x-k8s.io/clusterqueue"
    || framework == "kueue.x-k8s.io/resourceflavor"
    || framework == "kueue.x-k8s.io/cohort"
  }

  function OptInRequirement(): Requirement {
    Requirement(MANAGED, In, ["true"])
  }

  ghost predicate AllKnown(table: Table, letter: char, hooks: seq<Hook>) {
    forall h :: h in hooks ==> Known(table, letter, h.name)
  }

  ghost function Kept(table: Table, letter: char, listed: seq<string>, hooks: seq<Hook>): (kept: seq<Hook>)
    requires AllKnown(table, letter, hooks)
    ensures AllKnown(table, letter, kept)
  {
    if hooks == [] then []
    else
      var h := hooks[|hooks| - 1];
      var kept := Kept(table, letter, listed, hooks[..|hooks| - 1]);
      if InClosure(table, listed, FrameworkOf(table, letter, h.name)) then kept + [h] else kept
  }

  lemma {:induction false} KeptMembers(table: Table, letter: char, listed: seq<string>, hooks: seq<Hook>, h: Hook)
    requires AllKnown(table, letter, hooks)
    ensures h in Kept(table, letter, listed, hooks) <==>
            h in hooks && InClosure(table, listed, FrameworkOf(table, letter, h.name))
  {
    if hooks != [] {
      KeptMembers(table, letter, listed, hooks[..|hooks| - 1], h);
    }
  }

  ghost function Scoped(table: Table, letter: char, h: Hook): Hook
    requires Known(table, letter, h.name)
  {
    if IsClusterScoped(FrameworkOf(table, letter, h.name)) then h
    else h.(selector := Merge(Some(OptIn(OptInRequirement())), h.selector))
  }

  ghost function ScopedAll(table: Table, letter: char, hooks: seq<Hook>): (r: seq<Hook>)
    requires AllKnown(table, letter, hooks)
    ensures |r| == |hooks|
    ensures forall i :: 0 <= i < |r| ==> r[i] == Scoped(table, letter, hooks[i])
  {
    seq(|hooks|, i requires 0 <= i < |hooks| => Scoped(table, letter, hooks[i]))
  }

  ghost function Rewritten(table: Table, letter: char, listed: seq<string>, hooks: seq<Hook>): (r: seq<Hook>)
    requires AllKnown(table, letter, hooks)
    ensures AllKnown(table, letter, r)
  {
    var kept := Kept(table, letter, listed, hooks);
    var r := ScopedAll(table, letter, kept);
    assert forall i :: 0 <= i < |r| ==> kept[i] in kept && r[i].name == kept[i].name;
    r
  }

  // ---- The rewriting, as the code does it ----

  class LabelSelector {
    var labels: map<string, string>
    var exprs: seq<Requirement>

    constructor (labels: map<string, string>, exprs: seq<Requirement>)
      ensures View() == Selector(labels, exprs)
    {
      this.labels, this.exprs := labels, exprs;
    }

    function View(): Selector
      reads this
    {
      Selector(labels, exprs)
    }
  }

  /** A webhook struct: copying it copies the pointer, not the selector. */
  datatype Webhook = Webhook(name: string, namespaceSelector: LabelSelector?)

  class WebhookConfiguration {
    var webhooks: seq<Webhook>

    constructor (webhooks: seq<Webhook>)
      ensures this.webhooks == webhooks
    {
      this.webhooks := webhooks;
    }
  }

  function SelectorView(s: LabelSelector?): Option<Selector>
    reads s
  {
    if s == null then None else Some(s.View())
  }

  function HookView(w: Webhook): Hook
    reads w.namespaceSelector
  {
    Hook(w.name, SelectorView(w.namespaceSelector))
  }

  function HookViews(ws: seq<Webhook>): (hooks: seq<Hook>)
    reads set w | w in ws :: w.namespaceSelector
    ensures |hooks| == |ws| && forall i :: 0 <= i < |ws| ==> hooks[i] == HookView(ws[i])
  {
    seq(|ws|, i requires 0 <= i < |ws| reads set w | w in ws :: w.namespaceSelector => HookView(ws[i]))
  }

  method BuildEnabledFrameworks(table: Table, listed: seq<string>) returns (enabled: set<string>)
    ensures forall f :: f in enabled <==> InClosure(table, listed, f)
  {
    enabled := {};
    for i := 0 to |listed|
      invariant forall f :: f in enabled <==> f in listed[..i]
    {
      enabled := enabled + {listed[i]};
    }
    assert listed[..|listed|] == listed;
    if "LeaderWorkerSet" in enabled || "StatefulSet" in enabled || "Deployment" in enabled {
      enabled := enabled + {"Pod"};
    }
    ghost var implied := enabled;
    var todo := table.Keys;
    while todo != {}
      invariant todo <= table.Keys
      invariant forall f :: f in enabled <==> f in implied || (f in table && f !in todo && HasPrefix(f, CORE))
      decreases todo
    {
      var key :| key in todo;
      todo := todo - {key};
      if HasPrefix(key, CORE) {
        enabled := enabled + {key};
      }
    }
  }

  /** Ranges over the table in whatever order; None stands for the panic on an unknown name. */
  method GetFramework(table: Table, letter: char, name: string) returns (r: Option<string>)
    requires Injective(table)
    ensures r.Some? <==> Known(table, letter, name)
    ensures r.Some? ==> r.value == FrameworkOf(table, letter, name)
  {
    var suffix := NameSuffix(letter, name);
    var todo := table.Keys;
    while todo != {}
      invariant todo <= table.Keys
      invariant forall f :: f in table && table[f] == suffix ==> f in todo
      decreases todo
    {
      var f :| f in todo;
      if table[f] == suffix {
        return Some(f);
      }
      todo := todo - {f};
    }
    return None;
  }

  /** The set holds exactly the keys of these requirements. */
  ghost predicate KeysAre(seen: set<string>, exprs: seq<Requirement>) {
    forall k :: k in seen <==> HasKey(exprs, k)
  }

  lemma DedupStep(done: seq<Requirement>, seen: set<string>, e: Requirement)
    requires KeysAre(seen, Dedup(done))
    ensures e.key in seen ==> Dedup(done + [e]) == Dedup(done)
    ensures e.key !in seen ==> Dedup(done + [e]) == Dedup(done) + [e] && KeysAre(seen + {e.key}, Dedup(done) + [e])
  {
    assert (done + [e])[..|done|] == done;
    HasKeyAppend(Dedup(done), e);
    hide HasKey;
  }

  /** Appends the requirements whose key was not seen yet; `done` is what was looked at so far. */
  method AppendUnseen(ghost done: seq<Requirement>, merged: seq<Requirement>, seen: set<string>, exprs: seq<Requirement>)
    returns (mergedExpressions: seq<Requirement>, seenKeys: set<string>)
    requires merged == Dedup(done) && KeysAre(seen, merged)
    ensures mergedExpressions == Dedup(done + exprs) && KeysAre(seenKeys, mergedExpressions)
  {
    hide *;
    mergedExpressions, seenKeys := merged, seen;
    ghost var looked := done;
    for i := 0 to |exprs|
      invariant looked == done + exprs[..i]
      invariant mergedExpressions == Dedup(looked) && KeysAre(seenKeys, mergedExpressions)
    {
      var e := exprs[i];
      DedupStep(looked, seenKeys, e);
      looked := looked + [e];
      if e.key !in seenKeys {
        mergedExpressions := mergedExpressions + [e];
        seenKeys := seenKeys + {e.key};
      }
    }
    assert exprs[..|exprs|] == exprs;
  }

  method MergeSelectors(cr: LabelSelector?, existing: LabelSelector?) returns (merged: LabelSelector?)
    ensures SelectorView(merged) == Merge(SelectorView(cr), SelectorView(existing))
    ensures merged == null || merged == cr || merged == existing || fresh(merged)
  {
    if cr == null {
      return existing;
    }
    if existing == null {
      return cr;
    }
    var exprs, seenKeys := AppendUnseen([], [], {}, cr.exprs);
    exprs, seenKeys := AppendUnseen([] + cr.exprs, exprs, seenKeys, existing.exprs);
    assert [] + cr.exprs == cr.exprs;
    merged := new LabelSelector(existing.labels + cr.labels, exprs);
  }

  /** Null stands for the panic on an unregistered webhook name. Nothing that existed before is
      modified, although the kept webhooks share their selectors with the input. */
  method ModifyPodBasedWebhook(table: Table, letter: char, listed: seq<string>, current: WebhookConfiguration)
    returns (newWebhook: WebhookConfiguration?)
    requires Injective(table)
    ensures newWebhook == null <==> !AllKnown(table, letter, HookViews(current.webhooks))
    ensures newWebhook != null ==> fresh(newWebhook)
    ensures newWebhook != null ==>
              HookViews(newWebhook.webhooks) == Rewritten(table, letter, listed, HookViews(current.webhooks))
    ensures HookViews(current.webhooks) == old(HookViews(current.webhooks))
  {
    hide Kept, InClosure, FrameworkOf, Known, AllKnown, Scoped, ScopedAll, Rewritten, Injective;
    var kept := KeepEnabled(table, letter, listed, current.webhooks);
    if kept == None {
      return null;
    }
    RewritingIsKeepingAndScoping(table, letter, listed, HookViews(current.webhooks));
    var podSelector := new LabelSelector(map[], [OptInRequirement()]);
    assert podSelector.View() == OptIn(OptInRequirement());
    newWebhook := new WebhookConfiguration(kept.value);
    MergeNamespaceSelectors(table, letter, newWebhook, podSelector);
  }

  lemma RewritingIsKeepingAndScoping(table: Table, letter: char, listed: seq<string>, hooks: seq<Hook>)
    requires AllKnown(table, letter, hooks)
    ensures AllKnown(table, letter, Kept(table, letter, listed, hooks))
    ensures Rewritten(table, letter, listed, hooks) == ScopedAll(table, letter, Kept(table, letter, listed, hooks))
  {
  }

  method KeepEnabled(table: Table, letter: char, listed: seq<string>, webhooks: seq<Webhook>)
    returns (r: Option<seq<Webhook>>)
    requires Injective(table)
    ensures r.Some? <==> AllKnown(table, letter, HookViews(webhooks))
    ensures r.Some? ==> HookViews(r.value) == Kept(table, letter, listed, HookViews(webhooks))
  {
    hide Kept, AllKnown, Known, FrameworkOf, InClosure, Injective;
    var enabled := BuildEnabledFrameworks(table, listed);
    ghost var input := HookViews(webhooks);
    ghost var views: seq<Hook> := [];
    var kept: seq<Webhook> := [];
    NothingKeptYet(table, letter, listed, webhooks);
    for i := 0 to |webhooks|
      invariant AllKnown(table, letter, input[..i])
      invariant views == Kept(table, letter, listed, input[..i]) && views == HookViews(kept)
    {
      var w := webhooks[i];
      var framework := GetFramework(table, letter, w.name);
      if framework == None {
        UnknownPanics(table, letter, input, i);
        return None;
      }
      KeptStep(table, letter, listed, input, i);
      if framework.value in enabled {
        HookViewsAppend(kept, w);
        views := views + [input[i]];
        kept := kept + [w];
      }
    }
    assert input[..|input|] == input;
    return Some(kept);
  }

  lemma NothingKeptYet(table: Table, letter: char, listed: seq<string>, ws: seq<Webhook>)
    ensures var hooks := HookViews(ws);
      && |hooks| == |ws| && AllKnown(table, letter, hooks[..0])
      && HookViews([]) == Kept(table, letter, listed, hooks[..0]) == []
      && forall j :: 0 <= j < |ws| ==> hooks[j] == HookView(ws[j]) && hooks[j].name == ws[j].name
  {
  }

  lemma HookViewsAppend(kept: seq<Webhook>, w: Webhook)
    ensures HookViews(kept + [w]) == HookViews(kept) + [HookView(w)]
  {
  }

  lemma UnknownPanics(table: Table, letter: char, hooks: seq<Hook>, i: nat)
    requires i < |hooks| && !Known(table, letter, hooks[i].name)
    ensures !AllKnown(table, letter, hooks)
  {
    assert hooks[i] in hooks;
  }

  lemma KeptStep(table: Table, letter: char, listed: seq<string>, hooks: seq<Hook>, i: nat)
    requires i < |hooks| && AllKnown(table, letter, hooks[..i]) && Known(table, letter, hooks[i].name)
    ensures AllKnown(table, letter, hooks[..i + 1])
    ensures Kept(table, letter, listed, hooks[..i + 1]) ==
            Kept(table, letter, listed, hooks[..i]) +
            if InClosure(table, listed, FrameworkOf(table, letter, hooks[i].name)) then [hooks[i]] else []
  {
    assert forall h :: h in hooks[..i + 1] ==> h in hooks[..i] || h == hooks[i];
    assert hooks[..i + 1][..i] == hooks[..i];
  }

  method ScopeWebhook(table: Table, letter: char, w: Webhook, podSelector: LabelSelector) returns (scoped: Webhook)
    requires Injective(table) && Known(table, letter, w.name)
    requires podSelector.View() == OptIn(OptInRequirement())
    ensures HookView(scoped) == Scoped(table, letter, HookView(w))
  {
    scoped := w;
    var framework := GetFramework(table, letter, w.name);
    if !IsClusterScoped(framework.value) {
      var merged := MergeSelectors(podSelector, w.namespaceSelector);
      scoped := w.(namespaceSelector := merged);
    }
  }

  /** Replaces one webhook's selector pointer in the new configuration's own list. */
  method ScopeAt(table: Table, letter: char, wh: WebhookConfiguration, i: nat, podSelector: LabelSelector)
    requires Injective(table) && i < |wh.webhooks| && Known(table, letter, wh.webhooks[i].name)
    requires podSelector.View() == OptIn(OptInRequirement())
    modifies wh
    ensures |wh.webhooks| == |old(wh.webhooks)|
    ensures forall j :: 0 <= j < |wh.webhooks| && j != i ==> wh.webhooks[j] == old(wh.webhooks)[j]
    ensures HookView(wh.webhooks[i]) == Scoped(table, letter, old(HookView(wh.webhooks[i])))
  {
    var scoped := ScopeWebhook(table, letter, wh.webhooks[i], podSelector);
    wh.webhooks := wh.webhooks[i := scoped];
  }

  method MergeNamespaceSelectors(table: Table, letter: char, wh: WebhookConfiguration, podSelector: LabelSelector)
    requires Injective(table)
    requires podSelector.View() == OptIn(OptInRequirement())
    requires AllKnown(table, letter, HookViews(wh.webhooks))
    modifies wh
    ensures HookViews(wh.webhooks) == ScopedAll(table, letter, old(HookViews(wh.webhooks)))
  {
    ghost var hooks := HookViews(wh.webhooks);
    var n := |wh.webhooks|;
    assert forall j :: 0 <= j < n ==> hooks[j] in hooks;
    hide Scoped, Known, FrameworkOf, OptIn, OptInRequirement, Injective, SelectorView, HookViews, ScopedAll;
    for i := 0 to n
      invariant |wh.webhooks| == n && podSelector.View() == OptIn(OptInRequirement())
      invariant forall j :: 0 <= j < n ==>
        HookView(wh.webhooks[j]) == if j < i then Scoped(table, letter, hooks[j]) else hooks[j]
    {
      ScopeAt(table, letter, wh, i, podSelector);
    }
  }

  // ---- What the rewriting promises ----

  /** The positions of the webhooks that are kept. */
  ghost function KeptAt(table: Table, letter: char, listed: seq<string>, hooks: seq<Hook>): (at: seq<nat>)
    requires AllKnown(table, letter, hooks)
    ensures forall i :: 0 <= i < |at| ==> at[i] < |hooks|
  {
    if hooks == [] then []
    else
      var n := |hooks| - 1;
      var at := KeptAt(table, letter, listed, hooks[..n]);
      if InClosure(table, listed, FrameworkOf(table, letter, hooks[n].name)) then at + [n] else at
  }

  /** The kept webhooks are the input's in their old order, picked at exactly the positions whose
      framework is enabled. */
  lemma {:induction false} KeptIsOrderedSelection(table: Table, letter: char, listed: seq<string>, hooks: seq<Hook>)
    requires AllKnown(table, letter, hooks)
    ensures var at, kept := KeptAt(table, letter, listed, hooks), Kept(table, letter, listed, hooks);
      && |at| == |kept|
      && (forall i :: 0 <= i < |at| ==> kept[i] == hooks[at[i]])
      && (forall i, j :: 0 <= i < j < |at| ==> at[i] < at[j])
  {
    if hooks != [] {
      KeptIsOrderedSelection(table, letter, listed, hooks[..|hooks| - 1]);
    }
  }

  lemma {:induction false} KeptAtExactly(table: Table, letter: char, listed: seq<string>, hooks: seq<Hook>, k: nat)
    requires AllKnown(table, letter, hooks) && k < |hooks|
    ensures k in KeptAt(table, letter, listed, hooks) <==>
            InClosure(table, listed, FrameworkOf(table, letter, hooks[k].name))
  {
    var n := |hooks| - 1;
    KeptAtStep(table, letter, listed, hooks);
    hide *;
    InAppend(KeptAt(table, letter, listed, hooks[..n]),
             if InClosure(table, listed, FrameworkOf(table, letter, hooks[n].name)) then [n] else [], k);
    if k < n {
      KeptAtExactly(table, letter, listed, hooks[..n], k);
      assert hooks[..n][k] == hooks[k];
    }
  }

  lemma InAppend(at: seq<nat>, more: seq<nat>, k: nat)
    ensures k in at + more <==> k in at || k in more
  {
  }

  lemma KeptAtStep(table: Table, letter: char, listed: seq<string>, hooks: seq<Hook>)
    requires AllKnown(table, letter, hooks) && hooks != []
    ensures var n := |hooks| - 1;
      && AllKnown(table, letter, hooks[..n]) && Known(table, letter, hooks[n].name)
      && n !in KeptAt(table, letter, listed, hooks[..n])
      && KeptAt(table, letter, listed, hooks) ==
         KeptAt(table, letter, listed, hooks[..n]) +
         if InClosure(table, listed, FrameworkOf(table, letter, hooks[n].name)) then [n] else []
  {
    assert hooks[|hooks| - 1] in hooks;
    hide InClosure, FrameworkOf, Known;
  }

  /** Listing more frameworks never drops a webhook. */
  lemma MoreFrameworksDropNothing(table: Table, letter: char, few: seq<string>, many: seq<string>, hooks: seq<Hook>)
    requires AllKnown(table, letter, hooks)
    requires forall f :: f in few ==> f in many
    ensures forall h :: h in Kept(table, letter, few, hooks) ==> h in Kept(table, letter, many, hooks)
  {
    forall h | h in Kept(table, letter, few, hooks) ensures h in Kept(table, letter, many, hooks) {
      KeptMembers(table, letter, few, hooks, h);
      KeptMembers(table, letter, many, hooks, h);
    }
  }

  /** Core webhooks are kept whatever is listed. */
  lemma CoreIsAlwaysKept(table: Table, letter: char, listed: seq<string>, hooks: seq<Hook>, h: Hook)
    requires AllKnown(table, letter, hooks) && h in hooks
    requires HasPrefix(FrameworkOf(table, letter, h.name), CORE)
    ensures h in Kept(table, letter, listed, hooks)
  {
    KeptMembers(table, letter, listed, hooks, h);
  }

  lemma {:induction false} KeptAgain(table: Table, letter: char, listed: seq<string>, hooks: seq<Hook>)
    requires AllKnown(table, letter, hooks)
    requires forall h :: h in hooks ==> InClosure(table, listed, FrameworkOf(table, letter, h.name))
    ensures Kept(table, letter, listed, hooks) == hooks
  {
    if hooks != [] {
      KeptAgain(table, letter, listed, hooks[..|hooks| - 1]);
      assert hooks == hooks[..|hooks| - 1] + [hooks[|hooks| - 1]];
    }
  }

  /** Rewriting a rewritten configuration changes nothing. */
  lemma RewritingIsIdempotent(table: Table, letter: char, listed: seq<string>, hooks: seq<Hook>)
    requires AllKnown(table, letter, hooks)
    ensures var once := Rewritten(table, letter, listed, hooks);
      Rewritten(table, letter, listed, once) == once
  {
    var kept := Kept(table, letter, listed, hooks);
    var once := Rewritten(table, letter, listed, hooks);
    forall h | h in once ensures InClosure(table, listed, FrameworkOf(table, letter, h.name)) {
      var i :| 0 <= i < |once| && once[i] == h;
      KeptMembers(table, letter, listed, hooks, kept[i]);
    }
    KeptAgain(table, letter, listed, once);
    forall i | 0 <= i < |once| ensures Scoped(table, letter, once[i]) == once[i] {
      assert kept[i] in kept;
      MergeIsIdempotent(OptInRequirement(), kept[i].selector);
    }
  }

  /** A webhook of the result that is not cluster scoped only ever sees opted-in namespaces. */
  lemma RewrittenSeesOnlyOptedIn(table: Table, letter: char, listed: seq<string>, hooks: seq<Hook>, h: Hook, ns: Labels)
    requires AllKnown(table, letter, hooks) && h in Rewritten(table, letter, listed, hooks)
    requires !IsClusterScoped(FrameworkOf(table, letter, h.name))
    requires MatchesIfPresent(h.selector, ns)
    ensures Lookup(ns, MANAGED) == Some("true")
  {
    var kept := Kept(table, letter, listed, hooks);
    var i :| 0 <= i < |kept| && Scoped(table, letter, kept[i]) == h;
    assert kept[i] in kept;
    MergedRequiresOptIn(OptInRequirement(), kept[i].selector, ns);
  }

  /** Whose suffix this is, in the operator's own table: read off its length and a letter or two. */
  function Owner(suffix: string): string {
    match |suffix|
    case 3 => if suffix[0] == 'j' then "BatchJob" else "Pod"
    case 5 => "TFJob"
    case 6 =>
      if suffix[0] == 'm' then "MPIJob"
      else if suffix[0] == 'r' then "RayJob"
      else if suffix[0] == 'c' then "kueue.x-k8s.io/cohort"
      else if suffix[1] == 'o' then "JobSet" else "JaxJob"
    case 8 => if suffix[0] == 't' then "TrainJob" else "kueue.x-k8s.io/workload"
    case 9 => "PaddleJob"
    case 10 =>
      if suffix[0] == 'd' then "Deployment"
      else if suffix[0] == 'a' then "AppWrapper"
      else if suffix[0] == 'p' then "PyTorchJob"
      else if suffix[0] == 'x' then "XGBoostJob"
      else if suffix[3] == 'c' then "RayCluster" else "RayService"
    case 11 => "StatefulSet"
    case 12 => "kueue.x-k8s.io/clusterqueue"
    case 14 => "kueue.x-k8s.io/resourceflavor"
    case 15 => "LeaderWorkerSet"
    case _ => "SparkApplication"
  }

  lemma OwnerUndoesRegistered(f: string)
    requires f in REGISTERED
    ensures Owner(REGISTERED[f]) == f
  {
  }

  /** The operator's own table is injective, so its lookups are deterministic. */
  lemma RegisteredIsInjective()
    ensures Injective(REGISTERED)
  {
    forall f, g | f in REGISTERED && g in REGISTERED && REGISTERED[f] == REGISTERED[g] ensures f == g {
      OwnerUndoesRegistered(f);
      OwnerUndoesRegistered(g);
    }
  }

  // ---- In terms of webhook names ----

  /** The name of a registered framework's webhook. */
  function WebhookName(letter: char, f: string): string
    requires f in REGISTERED
  {
    [letter] + REGISTERED[f] + ".kb.io"
  }

  lemma RegisteredFramework(letter: char, f: string)
    requires f in REGISTERED
    ensures Known(REGISTERED, letter, WebhookName(letter, f))
    ensures FrameworkOf(REGISTERED, letter, WebhookName(letter, f)) == f
  {
    ParsingUndoesNaming(letter, REGISTERED[f]);
    OwnerUndoesRegistered(f);
    OwnerUndoesRegistered(FrameworkOf(REGISTERED, letter, WebhookName(letter, f)));
    hide Owner;
  }

  lemma CoreFrameworks(f: string)
    requires f in REGISTERED
    ensures HasPrefix(f, CORE) <==>
      f in ["kueue.x-k8s.io/clusterqueue", "kueue.x-k8s.io/workload", "kueue.x-k8s.io/resourceflavor", "kueue.x-k8s.io/cohort"]
  {
    assert HasPrefix(f, CORE) ==> |f| > 14 && f[0] == 'k';
  }

  /** Which webhooks the operator keeps: those of the frameworks the user listed, the pod webhook where a listed
      framework runs on pods, and Kueue's own four. */
  lemma KeptIffEnabled(letter: char, listed: seq<string>, hooks: seq<Hook>, f: string, h: Hook)
    requires AllKnown(REGISTERED, letter, hooks) && f in REGISTERED
    requires h in hooks && h.name == WebhookName(letter, f)
    ensures h in Kept(REGISTERED, letter, listed, hooks) <==>
      || f in listed
      || (f == "Pod" && ("Deployment" in listed || "StatefulSet" in listed || "LeaderWorkerSet" in listed))
      || f in ["kueue.x-k8s.io/clusterqueue", "kueue.x-k8s.io/workload", "kueue.x-k8s.io/resourceflavor", "kueue.x-k8s.io/cohort"]
  {
    RegisteredFramework(letter, f);
    KeptMembers(REGISTERED, letter, listed, hooks, h);
    CoreFrameworks(f);
    hide Kept, Known, FrameworkOf, HasPrefix;
    assert (exists g :: g in listed && NeedsPods(g)) <==>
      "Deployment" in listed || "StatefulSet" in listed || "LeaderWorkerSet" in listed by {
      assert NeedsPods("Deployment") && NeedsPods("StatefulSet") && NeedsPods("LeaderWorkerSet");
    }
  }

  /** The webhooks of the three cluster-scoped kinds come out as they went in. */
  lemma ClusterScopedStay(letter: char, listed: seq<string>, hooks: seq<Hook>, f: string, h: Hook)
    requires AllKnown(REGISTERED, letter, hooks) && f in REGISTERED && h.name == WebhookName(letter, f)
    requires f in ["kueue.x-k8s.io/clusterqueue", "kueue.x-k8s.io/resourceflavor", "kueue.x-k8s.io/cohort"]
    ensures h in Rewritten(REGISTERED, letter, listed, hooks) <==> h in hooks
  {
    RegisteredFramework(letter, f);
    assert IsClusterScoped(f);
    ScopedStays(letter, h);
    hide Known, FrameworkOf, Scoped, WebhookName, AllKnown;
    var kept, r := Kept(REGISTERED, letter, listed, hooks), Rewritten(REGISTERED, letter, listed, hooks);
    if h in hooks {
      KeptIffEnabled(letter, listed, hooks, f, h);
      var i :| 0 <= i < |kept| && kept[i] == h;
      assert r[i] == h;
    }
    if h in r {
      var i :| 0 <= i < |r| && r[i] == h;
      ScopedKeepsName(letter, kept, i);
      ScopedStays(letter, kept[i]);
      KeptMembers(REGISTERED, letter, listed, hooks, h);
    }
  }

  lemma ScopedStays(letter: char, h: Hook)
    requires Known(REGISTERED, letter, h.name)
    ensures IsClusterScoped(FrameworkOf(REGISTERED, letter, h.name)) ==> Scoped(REGISTERED, letter, h) == h
  {
  }

  lemma ScopedKeepsName(letter: char, kept: seq<Hook>, i: nat)
    requires AllKnown(REGISTERED, letter, kept) && i < |kept|
    ensures Known(REGISTERED, letter, kept[i].name)
    ensures ScopedAll(REGISTERED, letter, kept)[i] == Scoped(REGISTERED, letter, kept[i])
    ensures Scoped(REGISTERED, letter, kept[i]).name == kept[i].name
  {
    assert kept[i] in kept;
  }

  /** Every other webhook of the result sees only namespaces labelled kueue.openshift.io/managed=true. */
  lemma OthersSeeOnlyManaged(letter: char, listed: seq<string>, hooks: seq<Hook>, f: string, h: Hook, ns: Labels)
    requires AllKnown(REGISTERED, letter, hooks) && f in REGISTERED && h.name == WebhookName(letter, f)
    requires f !in ["kueue.x-k8s.io/clusterqueue", "kueue.x-k8s.io/resourceflavor", "kueue.x-k8s.io/cohort"]
    requires h in Rewritten(REGISTERED, letter, listed, hooks) && MatchesIfPresent(h.selector, ns)
    ensures "kueue.openshift.io/managed" in ns && ns["kueue.openshift.io/managed"] == "true"
  {
    RegisteredFramework(letter, f);
    assert !IsClusterScoped(f);
    hide Known, FrameworkOf, Scoped, Rewritten, WebhookName, AllKnown;
    RewrittenSeesOnlyOptedIn(REGISTERED, letter, listed, hooks, h, ns);
  }
}
