/** The annotations a sync puts on the Deployment's pod template: the CR's generation, and under "kind/name" a
    hash of every object the sync applied. */
module Fingerprint {
  import opened ClusterObjects
  import opened Strings
  import M = MetadataMerge

  /** The kinds whose objects a sync applies and hashes. */
  predicate IsHashed(kind: Kind) {
    kind != Secret && !kind.Other?
  }

  type Item = k: ObjKey | IsHashed(k.kind) witness ObjKey(Issuer, "", "")

  function ItemOf(kind: Kind, ns: string, name: string): Item
    requires IsHashed(kind)
  {
    ObjKey(kind, ns, name)
  }

  /** An applied object; `content` is the part that is hashed, as JSON. */
  datatype Object = Object(item: Item, content: string)

  function Prefix(kind: Kind): string
    requires IsHashed(kind)
  {
    match kind
    case Issuer => "issuer"
    case Certificate => "certificate"
    case ConfigMap => "configmap"
    case ServiceAccount => "serviceaccounts"
    case Role => "role"
    case RoleBinding => "rolebinding"
    case ClusterRole => "clusterrole"
    case ClusterRoleBinding => "clusterrolebinding"
    case Service => "service"
    case APIService => "apiservice"
    case PriorityLevelConfiguration => "prioritylevelconfiguration"
    case FlowSchema => "flowschema"
    case CRD => "crd"
    case NetworkPolicy => "networkpolicy"
    case MutatingWebhook => "mutatingwebhook"
    case ValidatingWebhook => "validatingwebhook"
    case ServiceMonitor => "servicemonitor"
  }

  /** The kind a prefix stands for, read off its length and two of its letters. */
  function KindOf(prefix: string): Kind {
    match |prefix|
    case 6 => Issuer
    case 11 => if prefix[1] == 'e' then Certificate else if prefix[1] == 'o' then RoleBinding else ClusterRole
    case 9 => ConfigMap
    case 15 => if prefix[0] == 's' then ServiceAccount else MutatingWebhook
    case 4 => Role
    case 18 => ClusterRoleBinding
    case 7 => Service
    case 10 => if prefix[0] == 'a' then APIService else FlowSchema
    case 26 => PriorityLevelConfiguration
    case 3 => CRD
    case 13 => NetworkPolicy
    case 17 => ValidatingWebhook
    case _ => ServiceMonitor
  }

  const OPERATOR_GROUP := "kueueoperator.kueue.openshift.io"
  const CLUSTER_KEY := OPERATOR_GROUP + ['/'] + "cluster"

  function KeyOf(item: Item): string {
    Prefix(item.kind) + ['/'] + item.name
  }

  lemma PrefixIsReversible(kind: Kind)
    requires IsHashed(kind)
    ensures KindOf(Prefix(kind)) == kind
  {
  }

  lemma ShortPrefixHasNoSlash(kind: Kind)
    requires IsHashed(kind)
    requires |Prefix(kind)| <= 11
    ensures '/' !in Prefix(kind)
  {
  }

  lemma LongPrefixHasNoSlash(kind: Kind)
    requires IsHashed(kind)
    requires |Prefix(kind)| > 11
    ensures '/' !in Prefix(kind)
  {
  }

  lemma PrefixIsShort(kind: Kind)
    requires IsHashed(kind)
    ensures |Prefix(kind)| < 32 == |OPERATOR_GROUP|
  {
  }

  /** Keys are unambiguous: they give back the kind and the name. */
  lemma KeyIsReversible(a: Item, b: Item)
    requires KeyOf(a) == KeyOf(b)
    ensures a.kind == b.kind && a.name == b.name
  {
    PrefixHasNoSlash(a.kind);
    PrefixHasNoSlash(b.kind);
    JoinIsInjective(Prefix(a.kind), a.name, Prefix(b.kind), b.name, '/');
    PrefixIsReversible(a.kind);
    PrefixIsReversible(b.kind);
  }

  lemma PrefixHasNoSlash(kind: Kind)
    requires IsHashed(kind)
    ensures '/' !in Prefix(kind)
  {
    if |Prefix(kind)| <= 11 {
      ShortPrefixHasNoSlash(kind);
    } else {
      LongPrefixHasNoSlash(kind);
    }
  }

  lemma GroupHasNoSlash()
    ensures '/' !in OPERATOR_GROUP
  {
  }

  lemma KeyIsNotTheClusters(a: Item)
    ensures KeyOf(a) != CLUSTER_KEY
  {
    if KeyOf(a) == CLUSTER_KEY {
      PrefixHasNoSlash(a.kind);
      GroupHasNoSlash();
      JoinIsInjective(Prefix(a.kind), a.name, OPERATOR_GROUP, "cluster", '/');
      PrefixIsShort(a.kind);
      assert false;
    }
  }

  // ---- Generations ----

  function Digit(d: nat): char
    requires d < 10
  {
    ('0' as int + d) as char
  }

  function Decimal(n: nat): (s: string)
    ensures s != ""
  {
    if n < 10 then [Digit(n)] else Decimal(n / 10) + [Digit(n % 10)]
  }

  lemma {:induction false} DecimalIsInjective(m: nat, n: nat)
    requires Decimal(m) == Decimal(n)
    ensures m == n
  {
    var s := Decimal(m);
    if m < 10 || n < 10 {
      assert |s| == 1;
    } else {
      assert s[..|s| - 1] == Decimal(m / 10) == Decimal(n / 10);
      assert s[|s| - 1] == Digit(m % 10) == Digit(n % 10);
      DecimalIsInjective(m / 10, n / 10);
    }
  }

  // ---- The annotations ----

  type Hash = string -> string

  /** specAnnotations after the objects were applied in this order. */
  function Annotations(hash: Hash, generation: nat, objs: seq<Object>): M.StringMap {
    if objs == [] then map[CLUSTER_KEY := Decimal(generation)]
    else
      var o := objs[|objs| - 1];
      Annotations(hash, generation, objs[..|objs| - 1])[KeyOf(o.item) := hash(o.content)]
  }

  /** The objects applied under one kind and name are one and the same. */
  ghost predicate OneObjectPerName(objs: seq<Object>) {
    forall a, b :: a in objs && b in objs && KeyOf(a.item) == KeyOf(b.item) ==> a == b
  }

  ghost predicate Explains(hash: Hash, o: Object, m: M.StringMap, k: string) {
    k in m && KeyOf(o.item) == k && m[k] == hash(o.content)
  }

  lemma AnnotationsStep(hash: Hash, generation: nat, objs: seq<Object>, o: Object)
    ensures Annotations(hash, generation, objs + [o]) == Annotations(hash, generation, objs)[KeyOf(o.item) := hash(o.content)]
    ensures KeyOf(o.item) != CLUSTER_KEY
  {
    assert (objs + [o])[..|objs|] == objs;
    KeyIsNotTheClusters(o.item);
  }

  lemma {:induction false} AnnotationsHold(hash: Hash, generation: nat, objs: seq<Object>)
    ensures var m := Annotations(hash, generation, objs);
      && CLUSTER_KEY in m && m[CLUSTER_KEY] == Decimal(generation)
      && (forall k :: k in m ==> k == CLUSTER_KEY || exists o :: o in objs && Explains(hash, o, m, k))
      && (forall o :: o in objs ==> KeyOf(o.item) in m)
  {
    if objs != [] {
      var before, o := objs[..|objs| - 1], objs[|objs| - 1];
      assert objs == before + [o];
      AnnotationsHold(hash, generation, before);
      AnnotationsStep(hash, generation, before, o);
      var l, m := Annotations(hash, generation, before), Annotations(hash, generation, objs);
      forall k | k in m && k != CLUSTER_KEY ensures exists p :: p in objs && Explains(hash, p, m, k) {
        if k == KeyOf(o.item) {
          assert Explains(hash, o, m, k);
        } else {
          var p :| p in before && Explains(hash, p, l, k);
          assert p in objs && Explains(hash, p, m, k);
        }
      }
    }
  }

  /** With one object per name, the annotations hold the hash of every object. */
  lemma EveryObjectIsHashed(hash: Hash, generation: nat, objs: seq<Object>, o: Object)
    requires OneObjectPerName(objs) && o in objs
    ensures var m := Annotations(hash, generation, objs);
      KeyOf(o.item) in m && m[KeyOf(o.item)] == hash(o.content)
  {
    AnnotationsHold(hash, generation, objs);
    KeyIsNotTheClusters(o.item);
    var m, k := Annotations(hash, generation, objs), KeyOf(o.item);
    var p :| p in objs && Explains(hash, p, m, k);
  }

  ghost predicate CollisionFree(hash: Hash) {
    forall x, y :: hash(x) == hash(y) ==> x == y
  }

  /** The two runs put objects of one kind and name in the same namespace. */
  ghost predicate SamePlaces(a: seq<Object>, b: seq<Object>) {
    forall x, y :: x in a && y in b && KeyOf(x.item) == KeyOf(y.item) ==> x.item == y.item
  }

  lemma SameAnnotationsSameObjects(hash: Hash, g: nat, a: seq<Object>, h: nat, b: seq<Object>, o: Object)
    requires CollisionFree(hash) && OneObjectPerName(a) && SamePlaces(a, b)
    requires Annotations(hash, g, a) == Annotations(hash, h, b) && o in a
    ensures o in b
  {
    EveryObjectIsHashed(hash, g, a, o);
    AnnotationsHold(hash, h, b);
    KeyIsNotTheClusters(o.item);
    var m, k := Annotations(hash, h, b), KeyOf(o.item);
    var p :| p in b && Explains(hash, p, m, k);
    assert p == o;
  }

  ghost predicate SameObjects(a: seq<Object>, b: seq<Object>) {
    forall o :: o in a <==> o in b
  }

  lemma SameObjectsSameAnnotations(hash: Hash, g: nat, a: seq<Object>, b: seq<Object>)
    requires OneObjectPerName(a) && OneObjectPerName(b) && SameObjects(a, b)
    ensures Annotations(hash, g, a) == Annotations(hash, g, b)
  {
    var m, n := Annotations(hash, g, a), Annotations(hash, g, b);
    AnnotationsHold(hash, g, a);
    AnnotationsHold(hash, g, b);
    hide Annotations, KeyOf;
    forall k ensures k in m <==> k in n {
    }
    forall k | k in m ensures m[k] == n[k] {
      if k != CLUSTER_KEY {
        var o :| o in a && Explains(hash, o, m, k);
        EveryObjectIsHashed(hash, g, b, o);
      }
    }
  }

  /** No key ends in "-", so merging the annotations removes none. */
  lemma {:induction false} AnnotationsRemoveNothing(hash: Hash, generation: nat, objs: seq<Object>)
    requires forall o :: o in objs ==> !HasSuffix(o.item.name, "-")
    ensures forall k :: k in Annotations(hash, generation, objs) ==> !M.Removal(k)
  {
    if objs == [] {
      assert CLUSTER_KEY[|CLUSTER_KEY| - 1] == 'r';
    } else {
      var o := objs[|objs| - 1];
      AnnotationsRemoveNothing(hash, generation, objs[..|objs| - 1]);
      EndsInDash(KeyOf(o.item));
      EndsInDash(o.item.name);
    }
  }

  lemma EndsInDash(s: string)
    ensures HasSuffix(s, "-") <==> s != "" && s[|s| - 1] == '-'
  {
    assert s != "" ==> s[|s| - 1..] == [s[|s| - 1]];
  }

  /** No annotation of the pod template in the asset uses a key of the fingerprint. */
  ghost predicate Apart(template: M.StringMap, m: M.StringMap) {
    forall k :: k in m ==> k !in template
  }

  /** Two syncs from the same asset give the pod template equal annotations exactly when they saw the same
      generation and applied the same objects with the same hashed content. */
  lemma FingerprintIsFaithful(
    template: M.StringMap, hash: Hash, g: nat, a: seq<Object>, h: nat, b: seq<Object>
  )
    requires CollisionFree(hash) && OneObjectPerName(a) && OneObjectPerName(b) && SamePlaces(a, b)
    requires Apart(template, Annotations(hash, g, a)) && Apart(template, Annotations(hash, h, b))
    ensures template + Annotations(hash, g, a) == template + Annotations(hash, h, b) <==> g == h && SameObjects(a, b)
  {
    var m, n := Annotations(hash, g, a), Annotations(hash, h, b);
    if template + m == template + n {
      assert m == (template + m) - template.Keys && n == (template + n) - template.Keys;
      AnnotationsHold(hash, g, a);
      AnnotationsHold(hash, h, b);
      DecimalIsInjective(g, h);
      forall o ensures o in a <==> o in b {
        if o in a {
          SameAnnotationsSameObjects(hash, g, a, h, b, o);
        }
        if o in b {
          SameAnnotationsSameObjects(hash, h, b, g, a, o);
        }
      }
    }
    if g == h && SameObjects(a, b) {
      SameObjectsSameAnnotations(hash, g, a, b);
    }
  }

  /** Names shared across namespaces would be lost: only the later of the two objects is in the annotations. */
  lemma SharedNameIsLost(
    hash: Hash, g: nat, objs: seq<Object>, kind: Kind, name: string, first: string, other: string
  )
    requires IsHashed(kind)
    ensures var later := Object(ObjKey(kind, "b", name), other);
      Annotations(hash, g, objs + [Object(ObjKey(kind, "a", name), first), later]) == Annotations(hash, g, objs + [later])
  {
    var x, y := Object(ObjKey(kind, "a", name), first), Object(ObjKey(kind, "b", name), other);
    assert (objs + [x, y])[..|objs| + 1] == objs + [x];
    assert (objs + [x])[..|objs|] == objs == (objs + [y])[..|objs|];
    assert KeyOf(x.item) == KeyOf(y.item);
    var m := Annotations(hash, g, objs);
    assert m[KeyOf(x.item) := hash(first)][KeyOf(y.item) := hash(other)] == m[KeyOf(y.item) := hash(other)];
  }
}
