/** The CRDs the operator installs, and the cluster roles with the names it writes into the manager role. */
module ManagerRole {
  import opened Strings

  /** An embedded CRD asset: its name and the names of its versions. */
  datatype Crd = Crd(name: string, versions: seq<string>)

  datatype PolicyRule = PolicyRule(
    verbs: seq<string>, apiGroups: seq<string>, resources: seq<string>, resourceNames: seq<string>)

  datatype ClusterRole = ClusterRole(name: string, aggregated: bool, rules: seq<PolicyRule>)

  const MANAGER_ROLE := "kueue-manager-role"
  const MUTATING := "kueue-mutating-webhook-configuration"
  const VALIDATING := "kueue-validating-webhook-configuration"

  predicate IsAlpha(crd: Crd) {
    exists v :: v in crd.versions && HasPrefix(v, "v1alpha")
  }

  /** The names of the CRDs that get installed, in the order of the embedded files. */
  function Installed(files: seq<Crd>): seq<string> {
    if files == [] then []
    else
      var last := files[|files| - 1];
      Installed(files[..|files| - 1]) + if IsAlpha(last) then [] else [last.name]
  }

  lemma {:induction false} InstalledHas(files: seq<Crd>)
    ensures forall n :: n in Installed(files) <==>
      exists c :: c in files && c.name == n && forall v :: v in c.versions ==> !("v1alpha" <= v)
  {
    assert forall c: Crd :: IsAlpha(c) <==> !(forall v :: v in c.versions ==> !("v1alpha" <= v));
    if files != [] {
      InstalledHas(files[..|files| - 1]);
      assert files == files[..|files| - 1] + [files[|files| - 1]];
    }
  }

  lemma {:induction false} PrefixOfInstalled(files: seq<Crd>, i: nat)
    requires i <= |files|
    ensures Installed(files[..i]) <= Installed(files)
  {
    if i == |files| {
      assert files[..i] == files;
    } else {
      PrefixOfInstalled(files[..|files| - 1], i);
      assert files[..|files| - 1][..i] == files[..i];
    }
  }

  // ---- The order of names ----

  /** Go's order on strings. */
  predicate Le(a: string, b: string) {
    a == [] || (b != [] && (a[0] < b[0] || (a[0] == b[0] && Le(a[1..], b[1..]))))
  }

  lemma {:induction false} LeIsTotal(a: string, b: string)
    ensures Le(a, b) || Le(b, a)
    ensures Le(a, b) && Le(b, a) ==> a == b
  {
    if a != [] && b != [] {
      LeIsTotal(a[1..], b[1..]);
      assert a == [a[0]] + a[1..] && b == [b[0]] + b[1..];
    }
  }

  lemma {:induction false} LeIsTransitive(a: string, b: string, c: string)
    requires Le(a, b) && Le(b, c)
    ensures Le(a, c)
  {
    if a != [] && a[0] == b[0] == c[0] {
      LeIsTransitive(a[1..], b[1..], c[1..]);
    }
  }

  ghost predicate Sorted(s: seq<string>) {
    forall i, j :: 0 <= i < j < |s| ==> Le(s[i], s[j])
  }

  function Insert(x: string, s: seq<string>): seq<string> {
    if s == [] || Le(x, s[0]) then [x] + s else [s[0]] + Insert(x, s[1..])
  }

  lemma {:induction false} InsertKeepsSorted(x: string, s: seq<string>)
    requires Sorted(s)
    ensures Sorted(Insert(x, s)) && multiset(Insert(x, s)) == multiset(s) + multiset{x}
  {
    hide Le;
    if s != [] {
      assert s == [s[0]] + s[1..];
      var t := Insert(x, s);
      if Le(x, s[0]) {
        forall i | 0 <= i < |s| ensures Le(x, s[i]) {
          if i > 0 {
            LeIsTransitive(x, s[0], s[i]);
          }
        }
      } else {
        LeIsTotal(x, s[0]);
        InsertKeepsSorted(x, s[1..]);
        forall i | 1 <= i < |t| ensures Le(s[0], t[i]) {
          assert t[i] in multiset(Insert(x, s[1..]));
          assert t[i] in multiset(s[1..]) || t[i] == x;
        }
      }
    }
  }

  function Sort(s: seq<string>): seq<string> {
    if s == [] then [] else Insert(s[0], Sort(s[1..]))
  }

  lemma {:induction false} SortSorts(s: seq<string>)
    ensures Sorted(Sort(s)) && multiset(Sort(s)) == multiset(s)
  {
    if s != [] {
      SortSorts(s[1..]);
      InsertKeepsSorted(s[0], Sort(s[1..]));
      assert s == [s[0]] + s[1..];
    }
  }

  lemma FirstIsLeast(s: seq<string>, x: string)
    requires Sorted(s) && x in s
    ensures Le(s[0], x)
  {
    LeIsTotal(x, x);
  }

  lemma SameFirst(s: seq<string>, t: seq<string>)
    requires Sorted(s) && Sorted(t) && multiset(s) == multiset(t) && s != [] && t != []
    ensures s[0] == t[0]
  {
    assert s[0] in multiset(t) && t[0] in multiset(s);
    FirstIsLeast(s, t[0]);
    FirstIsLeast(t, s[0]);
    LeIsTotal(s[0], t[0]);
  }

  lemma SortedTail(s: seq<string>)
    requires Sorted(s) && s != []
    ensures Sorted(s[1..]) && multiset(s[1..]) == multiset(s) - multiset{s[0]}
  {
    assert s == [s[0]] + s[1..];
  }

  /** Whatever algorithm sorts the names, it gives the same list. */
  lemma {:induction false} SortedIsUnique(s: seq<string>, t: seq<string>)
    requires Sorted(s) && Sorted(t) && multiset(s) == multiset(t)
    ensures s == t
  {
    assert |s| == |multiset(s)| == |multiset(t)| == |t|;
    if s != [] {
      SameFirst(s, t);
      SortedTail(s);
      SortedTail(t);
      SortedIsUnique(s[1..], t[1..]);
      assert s == [s[0]] + s[1..] && t == [t[0]] + t[1..];
    }
  }

  // ---- Installing the CRDs and naming them ----

  method HasAlphaVersion(crd: Crd) returns (alpha: bool)
    ensures alpha <==> IsAlpha(crd)
    ensures alpha <==> exists i :: 0 <= i < |crd.versions| && "v1alpha" <= crd.versions[i]
  {
    alpha := false;
    for i := 0 to |crd.versions|
      invariant !alpha && forall k :: 0 <= k < i ==> !HasPrefix(crd.versions[k], "v1alpha")
    {
      if HasPrefix(crd.versions[i], "v1alpha") {
        return true;
      }
    }
  }

  method KueueCRDNames(files: seq<Crd>) returns (names: seq<string>)
    ensures Sorted(names) && multiset(names) == multiset(Installed(files))
  {
    names := [];
    for i := 0 to |files|
      invariant names == Installed(files[..i])
    {
      assert files[..i + 1][..i] == files[..i];
      var alpha := HasAlphaVersion(files[i]);
      if !alpha {
        names := names + [files[i].name];
      }
    }
    assert files[..|files|] == files;
    SortSorts(names);
    names := Sort(names);
  }

  // ---- Scoping the role ----

  predicate IsWebhookConfigurationRule(rule: PolicyRule) {
    && "admissionregistration.k8s.io" in rule.apiGroups
    && ("mutatingwebhookconfigurations" in rule.resources || "validatingwebhookconfigurations" in rule.resources)
  }

  predicate IsCRDRule(rule: PolicyRule) {
    "apiextensions.k8s.io" in rule.apiGroups && "customresourcedefinitions" in rule.resources
  }

  /** The names a rule is left with: a CRD rule gets the CRDs even when it also names webhooks. */
  function NamesFor(rule: PolicyRule, crds: seq<string>): seq<string> {
    if IsCRDRule(rule) then crds else if IsWebhookConfigurationRule(rule) then [MUTATING, VALIDATING] else rule.resourceNames
  }

  function Scoped(rules: seq<PolicyRule>, crds: seq<string>): seq<PolicyRule> {
    seq(|rules|, i requires 0 <= i < |rules| => rules[i].(resourceNames := NamesFor(rules[i], crds)))
  }

  method ScopeManagerRoleResourceNames(rules: array<PolicyRule>, files: seq<Crd>)
    modifies rules
    ensures rules[..] == Scoped(old(rules[..]), Sort(Installed(files)))
  {
    var crds := KueueCRDNames(files);
    SortSorts(Installed(files));
    SortedIsUnique(crds, Sort(Installed(files)));
    hide Installed, Sort, Sorted, IsCRDRule, IsWebhookConfigurationRule;
    for i := 0 to rules.Length
      invariant forall k :: 0 <= k < i ==> rules[k] == old(rules[k]).(resourceNames := NamesFor(old(rules[k]), crds))
      invariant forall k :: i <= k < rules.Length ==> rules[k] == old(rules[k])
    {
      if IsWebhookConfigurationRule(rules[i]) {
        rules[i] := rules[i].(resourceNames := [MUTATING, VALIDATING]);
      }
      if IsCRDRule(rules[i]) {
        rules[i] := rules[i].(resourceNames := crds);
      }
    }
    assert rules[..] == Scoped(old(rules[..]), crds);
  }

  /** What the operator applies for one cluster role asset; aggregated roles are not applied. */
  function RoleFor(role: ClusterRole, files: seq<Crd>): ClusterRole {
    if role.name == MANAGER_ROLE then role.(rules := Scoped(role.rules, Sort(Installed(files)))) else role
  }

  function RolesFor(roles: seq<ClusterRole>, files: seq<Crd>): seq<ClusterRole> {
    if roles == [] then []
    else
      var last := roles[|roles| - 1];
      RolesFor(roles[..|roles| - 1], files) + if last.aggregated then [] else [RoleFor(last, files)]
  }

  lemma {:induction false} PrefixOfRoles(roles: seq<ClusterRole>, i: nat, files: seq<Crd>)
    requires i <= |roles|
    ensures RolesFor(roles[..i], files) <= RolesFor(roles, files)
  {
    hide RoleFor;
    if i == |roles| {
      assert roles[..i] == roles;
    } else {
      PrefixOfRoles(roles[..|roles| - 1], i, files);
      assert roles[..|roles| - 1][..i] == roles[..i];
    }
  }

  method RequiredRole(role: ClusterRole, files: seq<Crd>) returns (required: ClusterRole)
    ensures required == RoleFor(role, files)
  {
    required := role;
    if role.name == MANAGER_ROLE {
      var rules := new PolicyRule[|role.rules|](k requires 0 <= k < |role.rules| => role.rules[k]);
      assert rules[..] == role.rules;
      ScopeManagerRoleResourceNames(rules, files);
      required := role.(rules := rules[..]);
    }
  }

  // ---- What the scoped role allows ----

  /** Kubernetes RBAC: a rule without resource names covers every name. */
  predicate Names(rule: PolicyRule, name: string) {
    rule.resourceNames == [] || name in rule.resourceNames
  }

  /** A scoped CRD rule covers exactly the installed CRDs, if any CRD is installed at all. */
  lemma CrdRuleCoversInstalledIff(rule: PolicyRule, files: seq<Crd>)
    requires "apiextensions.k8s.io" in rule.apiGroups && "customresourcedefinitions" in rule.resources
    ensures var scoped := Scoped([rule], Sort(Installed(files)))[0];
      (forall n :: Names(scoped, n) <==> n in Installed(files)) <==> Installed(files) != []
  {
    var crds, names := Installed(files), Sort(Installed(files));
    SortSorts(crds);
    assert forall n :: n in names <==> n in multiset(names);
    assert forall n :: n in crds <==> n in multiset(crds);
    assert |names| == |multiset(names)| == |multiset(crds)| == |crds|;
    if crds == [] {
      assert Names(Scoped([rule], names)[0], "") && "" !in crds;
    }
  }

  /** Scoping changes nothing but the names of rules on webhook configurations and CRDs, and doing it again
      changes nothing. */
  lemma ScopingTouchesOnlyNames(rules: seq<PolicyRule>, crds: seq<string>, i: nat)
    requires i < |rules|
    ensures |Scoped(rules, crds)| == |rules|
    ensures Scoped(rules, crds)[i].(resourceNames := rules[i].resourceNames) == rules[i]
    ensures var rule := rules[i];
      Scoped(rules, crds)[i].resourceNames ==
      if "apiextensions.k8s.io" in rule.apiGroups && "customresourcedefinitions" in rule.resources then crds
      else if "admissionregistration.k8s.io" in rule.apiGroups &&
              ("mutatingwebhookconfigurations" in rule.resources || "validatingwebhookconfigurations" in rule.resources)
      then ["kueue-mutating-webhook-configuration", "kueue-validating-webhook-configuration"]
      else rule.resourceNames
    ensures Scoped(Scoped(rules, crds), crds) == Scoped(rules, crds)
  {
    var once := Scoped(rules, crds);
    forall k | 0 <= k < |rules| ensures Scoped(once, crds)[k] == once[k] {
      assert NamesFor(once[k], crds) == NamesFor(rules[k], crds) by {
        assert IsCRDRule(once[k]) == IsCRDRule(rules[k]);
        assert IsWebhookConfigurationRule(once[k]) == IsWebhookConfigurationRule(rules[k]);
      }
    }
    assert Scoped(once, crds) == once;
  }

  /** The manager role as applied: the CRDs it may change are those the same sync installs. */
  lemma ManagerMayChangeInstalled(roles: seq<ClusterRole>, files: seq<Crd>, role: ClusterRole, i: nat, n: string)
    requires role in RolesFor(roles, files) && role.name == "kueue-manager-role"
    requires i < |role.rules| && Installed(files) != []
    requires "apiextensions.k8s.io" in role.rules[i].apiGroups && "customresourcedefinitions" in role.rules[i].resources
    ensures Names(role.rules[i], n) <==> n in Installed(files)
  {
    RolesForHas(roles, files);
    var r :| r in roles && !r.aggregated && role == RoleFor(r, files);
    CrdRuleCoversInstalledIff(r.rules[i], files);
  }

  /** And the webhook configurations it may change are Kueue's two: what its rules on webhook configurations
      cover, taken together, is exactly those, unless some such rule is also a CRD rule. */
  lemma ManagerMayChangeKueuesWebhooks(roles: seq<ClusterRole>, files: seq<Crd>, role: ClusterRole, n: string)
    requires role in RolesFor(roles, files) && role.name == "kueue-manager-role"
    requires exists rule :: rule in role.rules && OnWebhooks(rule)
    requires forall rule :: rule in role.rules && OnWebhooks(rule) ==>
      "apiextensions.k8s.io" !in rule.apiGroups || "customresourcedefinitions" !in rule.resources
    ensures (exists rule :: rule in role.rules && OnWebhooks(rule) && Names(rule, n)) <==>
            n == "kueue-mutating-webhook-configuration" || n == "kueue-validating-webhook-configuration"
  {
    RolesForHas(roles, files);
    var r :| r in roles && !r.aggregated && role == RoleFor(r, files);
    var crds := Sort(Installed(files));
    forall rule | rule in role.rules && OnWebhooks(rule)
      ensures Names(rule, n) <==> n == MUTATING || n == VALIDATING
    {
      var i :| 0 <= i < |role.rules| && role.rules[i] == rule;
      assert rule == r.rules[i].(resourceNames := NamesFor(r.rules[i], crds));
      assert rule.resourceNames == [MUTATING, VALIDATING];
    }
  }

  /** The rule grants something on webhook configurations. */
  predicate OnWebhooks(rule: PolicyRule) {
    && "admissionregistration.k8s.io" in rule.apiGroups
    && ("mutatingwebhookconfigurations" in rule.resources || "validatingwebhookconfigurations" in rule.resources)
  }

  /** Aggregated roles are never applied, all others are, and only the manager role is changed. */
  lemma OtherRolesStay(roles: seq<ClusterRole>, files: seq<Crd>, role: ClusterRole)
    requires role.name != "kueue-manager-role"
    ensures role in RolesFor(roles, files) <==> role in roles && !role.aggregated
  {
    RolesForHas(roles, files);
    if role in RolesFor(roles, files) {
      var r :| r in roles && !r.aggregated && role == RoleFor(r, files);
    }
    if role in roles && !role.aggregated {
      assert role == RoleFor(role, files);
    }
  }

  lemma {:induction false} RolesForHas(roles: seq<ClusterRole>, files: seq<Crd>)
    ensures forall a :: a in RolesFor(roles, files) <==> exists r :: r in roles && !r.aggregated && a == RoleFor(r, files)
  {
    if roles != [] {
      RolesForHas(roles[..|roles| - 1], files);
      assert roles == roles[..|roles| - 1] + [roles[|roles| - 1]];
    }
  }
}
