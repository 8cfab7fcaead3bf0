/** Kubernetes label selectors, and what merging two of them means for the namespaces they match. */
module Selectors {
  import opened Options

  datatype Operator = In | NotIn | Exists | DoesNotExist

  datatype Requirement = Requirement(key: string, op: Operator, values: seq<string>)

  datatype Selector = Selector(labels: map<string, string>, exprs: seq<Requirement>)

  type Labels = map<string, string>

  /** The operator's own selector: the one requirement that a namespace has opted in. */
  function OptIn(opt: Requirement): Selector {
    Selector(map[], [opt])
  }

  // ---- Meaning ----

  function Lookup(ns: Labels, key: string): Option<string> {
    if key in ns then Some(ns[key]) else None
  }

  /** The requirement accepts a label with this value, or its absence. */
  predicate Accepts(r: Requirement, v: Option<string>) {
    match r.op
    case In => v.Some? && v.value in r.values
    case NotIn => v.Some? ==> v.value !in r.values
    case Exists => v.Some?
    case DoesNotExist => v.None?
  }

  /** The operators pair up as opposites, and an absent label is accepted by the negative ones only. */
  lemma OperatorsAreOpposites(key: string, values: seq<string>, v: Option<string>)
    ensures Accepts(Requirement(key, NotIn, values), v) <==> !Accepts(Requirement(key, In, values), v)
    ensures Accepts(Requirement(key, DoesNotExist, values), v) <==> !Accepts(Requirement(key, Exists, values), v)
    ensures Accepts(Requirement(key, In, values), v) ==> Accepts(Requirement(key, Exists, values), v) && v.value in values
    ensures forall op :: Accepts(Requirement(key, op, values), None) <==> op.NotIn? || op.DoesNotExist?
  {
  }

  ghost predicate Matches(s: Selector, ns: Labels) {
    && (forall k :: k in s.labels ==> Lookup(ns, k) == Some(s.labels[k]))
    && (forall r :: r in s.exprs ==> Accepts(r, Lookup(ns, r.key)))
  }

  /** A missing selector matches every namespace. */
  ghost predicate MatchesIfPresent(s: Option<Selector>, ns: Labels) {
    s.Some? ==> Matches(s.value, ns)
  }

  // ---- Merging ----

  predicate HasKey(exprs: seq<Requirement>, key: string) {
    exists r :: r in exprs && r.key == key
  }

  /** Keeps the first requirement of each key. */
  function Dedup(exprs: seq<Requirement>): seq<Requirement> {
    if exprs == [] then []
    else
      var e := exprs[|exprs| - 1];
      var d := Dedup(exprs[..|exprs| - 1]);
      if HasKey(d, e.key) then d else d + [e]
  }

  lemma {:induction false} DedupAddsNothing(exprs: seq<Requirement>)
    ensures forall r :: r in Dedup(exprs) ==> r in exprs
  {
    if exprs != [] {
      DedupAddsNothing(exprs[..|exprs| - 1]);
    }
  }

  /** mergeSelectors on values; None stands for a nil selector. */
  function Merge(cr: Option<Selector>, existing: Option<Selector>): Option<Selector> {
    if cr.None? then existing
    else if existing.None? then cr
    else Some(Selector(existing.value.labels + cr.value.labels, Dedup(cr.value.exprs + existing.value.exprs)))
  }

  predicate DistinctKeys(exprs: seq<Requirement>) {
    forall i, j :: 0 <= i < j < |exprs| ==> exprs[i].key != exprs[j].key
  }

  lemma {:induction false} DedupHasDistinctKeys(exprs: seq<Requirement>)
    ensures DistinctKeys(Dedup(exprs))
  {
    if exprs != [] {
      DedupHasDistinctKeys(exprs[..|exprs| - 1]);
    }
  }

  lemma LastKeyIsNew(exprs: seq<Requirement>)
    requires DistinctKeys(exprs) && exprs != []
    ensures !HasKey(exprs[..|exprs| - 1], exprs[|exprs| - 1].key) && DistinctKeys(exprs[..|exprs| - 1])
  {
    forall q | q in exprs[..|exprs| - 1] ensures q.key != exprs[|exprs| - 1].key {
      var i :| 0 <= i < |exprs| - 1 && exprs[i] == q;
    }
  }

  lemma {:induction false} DedupKeepsDistinct(exprs: seq<Requirement>)
    requires DistinctKeys(exprs)
    ensures Dedup(exprs) == exprs
  {
    if exprs != [] {
      LastKeyIsNew(exprs);
      hide DistinctKeys, HasKey;
      var shorter := exprs[..|exprs| - 1];
      DedupKeepsDistinct(shorter);
      assert exprs == shorter + [exprs[|exprs| - 1]];
    }
  }

  lemma {:induction false} DedupStartsWithDistinct(a: seq<Requirement>, b: seq<Requirement>)
    requires DistinctKeys(a)
    ensures a <= Dedup(a + b)
  {
    if b == [] {
      assert a + b == a;
      DedupKeepsDistinct(a);
    } else {
      assert (a + b)[..|a + b| - 1] == a + b[..|b| - 1];
      DedupStartsWithDistinct(a, b[..|b| - 1]);
    }
  }

  /** The operator's selector merged into one that is there. */
  function Merged(opt: Requirement, existing: Selector): (m: Selector)
    ensures Merge(Some(OptIn(opt)), Some(existing)) == Some(m)
  {
    Selector(existing.labels + map[], Dedup([opt] + existing.exprs))
  }

  /** Opt-in: whatever the existing selector was, the merged one only matches namespaces that
      meet the operator's requirement. */
  lemma MergedRequiresOptIn(opt: Requirement, existing: Option<Selector>, ns: Labels)
    requires MatchesIfPresent(Merge(Some(OptIn(opt)), existing), ns)
    ensures Accepts(opt, Lookup(ns, opt.key))
  {
    if existing.Some? {
      DedupStartsWithDistinct([opt], existing.value.exprs);
      assert Merged(opt, existing.value).exprs[0] == opt;
    }
    assert opt in Merge(Some(OptIn(opt)), existing).value.exprs;
  }

  // ---- When merging is exactly "both" ----

  /** Merging lost nothing: the merged selector matches what both of them match. */
  ghost predicate MatchesBoth(opt: Requirement, existing: Selector) {
    forall ns: Labels :: Matches(Merged(opt, existing), ns) <==> Matches(OptIn(opt), ns) && Matches(existing, ns)
  }

  /** What a selector, on its own, leaves open for one label. */
  ghost predicate LeavesOpen(s: Selector, key: string, v: Option<string>) {
    && (key in s.labels ==> v == Some(s.labels[key]))
    && (forall r :: r in s.exprs && r.key == key ==> Accepts(r, v))
  }

  /** Every requirement of the existing selector follows, label by label, from what the merged
      selector kept for the same label; or the merged selector matches nothing at all. */
  ghost predicate DroppedIsImplied(opt: Requirement, existing: Selector) {
    || (forall ns: Labels :: !Matches(Merged(opt, existing), ns))
    || (forall r, v :: r in existing.exprs && LeavesOpen(Merged(opt, existing), r.key, v) ==> Accepts(r, v))
  }

  function SetLabel(ns: Labels, key: string, v: Option<string>): Labels {
    if v.Some? then ns[key := v.value] else ns - {key}
  }

  lemma SetLabelMatches(s: Selector, ns: Labels, key: string, v: Option<string>)
    requires Matches(s, ns) && LeavesOpen(s, key, v)
    ensures Matches(s, SetLabel(ns, key, v)) && Lookup(SetLabel(ns, key, v), key) == v
  {
    var ns' := SetLabel(ns, key, v);
    forall k ensures Lookup(ns', k) == if k == key then v else Lookup(ns, k) {
    }
  }

  lemma ImpliedMeansBoth(opt: Requirement, existing: Selector, ns: Labels)
    requires DroppedIsImplied(opt, existing)
    ensures Matches(Merged(opt, existing), ns) <==> Matches(OptIn(opt), ns) && Matches(existing, ns)
  {
    var m := Merged(opt, existing);
    if Matches(m, ns) {
      MergedRequiresOptIn(opt, Some(existing), ns);
      forall r | r in existing.exprs ensures Accepts(r, Lookup(ns, r.key)) {
        assert LeavesOpen(m, r.key, Lookup(ns, r.key));
      }
    }
    DedupAddsNothing([opt] + existing.exprs);
    assert forall r :: r in m.exprs ==> r == opt || r in existing.exprs;
    assert opt in OptIn(opt).exprs;
  }

  /** Where a dropped requirement is not implied, some namespace tells the two apart. */
  lemma NotImpliedMeansNotBoth(opt: Requirement, existing: Selector)
    requires !DroppedIsImplied(opt, existing)
    ensures !MatchesBoth(opt, existing)
  {
    var m := Merged(opt, existing);
    var ns: Labels :| Matches(m, ns);
    var r, v :| r in existing.exprs && LeavesOpen(m, r.key, v) && !Accepts(r, v);
    SetLabelMatches(m, ns, r.key, v);
  }

  /** What a namespace tells about what was dropped: the merged selector is exactly the conjunction if and
      only if the dropped requirements follow from the kept ones. */
  lemma MatchesBothIffImplied(opt: Requirement, existing: Selector)
    ensures MatchesBoth(opt, existing) <==> DroppedIsImplied(opt, existing)
  {
    if DroppedIsImplied(opt, existing) {
      forall ns: Labels
        ensures Matches(Merged(opt, existing), ns) <==> Matches(OptIn(opt), ns) && Matches(existing, ns)
      {
        ImpliedMeansBoth(opt, existing, ns);
      }
    } else {
      NotImpliedMeansNotBoth(opt, existing);
    }
  }

  // ---- A condition to check before merging ----

  /** The first requirement on a key, which is the one that is kept. */
  function First(exprs: seq<Requirement>, key: string): Requirement
    requires HasKey(exprs, key)
  {
    if exprs[0].key == key then exprs[0]
    else
      assert exprs == [exprs[0]] + exprs[1..];
      First(exprs[1..], key)
  }

  /** No value of a label with these match labels meets the requirement. */
  predicate Impossible(labels: Labels, r: Requirement) {
    if r.key in labels then !Accepts(r, Some(labels[r.key])) else r.op == In && r.values == []
  }

  /** Every value that meets f, and the match labels, meets r as well. */
  predicate Implies(labels: Labels, f: Requirement, r: Requirement) {
    if r.key in labels then Accepts(f, Some(labels[r.key])) ==> Accepts(r, Some(labels[r.key]))
    else
      match f.op
      case In => forall v :: v in f.values ==> Accepts(r, Some(v))
      case DoesNotExist => Accepts(r, None)
      case Exists => r.op == Exists || (r.op == NotIn && r.values == [])
      case NotIn => r.op == NotIn && forall v :: v in r.values ==> v in f.values
  }

  /** Each requirement of the existing selector follows from the first one on its key, or some first
      requirement cannot be met at all. */
  predicate LosesNothing(opt: Requirement, existing: Selector) {
    var all := [opt] + existing.exprs;
    || (exists r :: r in all && Impossible(existing.labels, First(all, r.key)))
    || (forall r :: r in existing.exprs ==> r in all && Implies(existing.labels, First(all, r.key), r))
  }

  lemma {:induction false} FirstAppend(exprs: seq<Requirement>, e: Requirement, key: string)
    requires HasKey(exprs + [e], key)
    ensures HasKey(exprs, key) ==> First(exprs + [e], key) == First(exprs, key)
    ensures !HasKey(exprs, key) ==> First(exprs + [e], key) == e
  {
    var all := exprs + [e];
    if exprs != [] {
      assert exprs[0] in exprs && exprs == [exprs[0]] + exprs[1..];
      if exprs[0].key != key {
        assert all[1..] == exprs[1..] + [e];
        assert all == [all[0]] + all[1..];
        FirstAppend(exprs[1..], e, key);
      }
    }
  }

  /** Deduplication keeps exactly the first requirement of each key. */
  lemma {:induction false} DedupKeepsFirsts(exprs: seq<Requirement>)
    ensures forall r :: r in Dedup(exprs) <==> HasKey(exprs, r.key) && r == First(exprs, r.key)
  {
    if exprs != [] {
      var before, e := exprs[..|exprs| - 1], exprs[|exprs| - 1];
      assert exprs == before + [e];
      DedupKeepsFirsts(before);
      forall key | HasKey(before, key) ensures HasKey(Dedup(before), key) {
        FirstHasKey(before, key);
        assert First(before, key) in Dedup(before);
      }
      forall r ensures r in Dedup(exprs) <==> HasKey(exprs, r.key) && r == First(exprs, r.key) {
        assert HasKey(exprs, r.key) <==> HasKey(before, r.key) || e.key == r.key by {
          assert e in exprs;
        }
        if HasKey(exprs, r.key) {
          FirstAppend(before, e, r.key);
        }
      }
    }
  }

  lemma {:induction false} FirstHasKey(exprs: seq<Requirement>, key: string)
    requires HasKey(exprs, key)
    ensures First(exprs, key).key == key && First(exprs, key) in exprs
  {
    if exprs[0].key != key {
      assert exprs == [exprs[0]] + exprs[1..];
      FirstHasKey(exprs[1..], key);
    }
  }

  /** A value longer than all of these. */
  function Fresh(values: seq<string>): (v: string)
    ensures forall x :: x in values ==> |x| < |v|
  {
    if values == [] then "x"
    else
      var v := Fresh(values[1..]);
      assert values == [values[0]] + values[1..];
      if |values[0]| < |v| then v else values[0] + "x"
  }

  /** What a pair of requirements on one key means, value by value. */
  ghost predicate ImpliesByValue(labels: Labels, f: Requirement, r: Requirement) {
    forall v :: (r.key in labels ==> v == Some(labels[r.key])) && Accepts(f, v) ==> Accepts(r, v)
  }

  lemma ImpliesIsByValue(labels: Labels, f: Requirement, r: Requirement)
    requires f.key == r.key
    ensures Implies(labels, f, r) <==> ImpliesByValue(labels, f, r)
  {
    if ImpliesByValue(labels, f, r) && r.key !in labels {
      var unseen := Fresh(f.values + r.values);
      assert unseen !in f.values && unseen !in r.values;
      assert Accepts(f, None) ==> Accepts(r, None);
      assert Accepts(f, Some(unseen)) ==> Accepts(r, Some(unseen));
      forall v | v in f.values ensures f.op == In ==> Accepts(r, Some(v)) {
        assert f.op == In ==> Accepts(f, Some(v));
      }
      forall v | v in r.values ensures f.op == NotIn && r.op == NotIn ==> v in f.values {
        assert f.op == NotIn && v !in f.values ==> Accepts(f, Some(v));
      }
      forall v | v in r.values ensures !(f.op == Exists && r.op == NotIn) {
        assert f.op == Exists ==> Accepts(f, Some(v));
      }
      assert |r.values| > 0 ==> r.values[0] in r.values;
    }
  }

  /** A namespace that carries the match labels and a value wherever a requirement asks for one. */
  function Witness(labels: Labels, exprs: seq<Requirement>): Labels
    requires forall r :: r in exprs ==> !Impossible(labels, r)
  {
    if exprs == [] then labels
    else
      var r := exprs[|exprs| - 1];
      assert r in exprs && !Impossible(labels, r);
      var ns := Witness(labels, exprs[..|exprs| - 1]);
      if r.key in labels then ns
      else match r.op
        case In => ns[r.key := r.values[0]]
        case Exists => ns[r.key := ""]
        case _ => ns
  }

  lemma {:induction false} WitnessMatches(labels: Labels, exprs: seq<Requirement>)
    requires DistinctKeys(exprs) && forall r :: r in exprs ==> !Impossible(labels, r)
    ensures Matches(Selector(labels, exprs), Witness(labels, exprs))
    ensures forall k :: k in Witness(labels, exprs) ==> k in labels || HasKey(exprs, k)
  {
    if exprs != [] {
      var before, r := exprs[..|exprs| - 1], exprs[|exprs| - 1];
      assert exprs == before + [r];
      WitnessMatches(labels, before);
      LastKeyIsNew(exprs);
      HasKeyAppend(before, r);
      assert !Impossible(labels, r);
      hide HasKey, DistinctKeys;
      var ns, ns' := Witness(labels, before), Witness(labels, exprs);
      assert Accepts(r, Lookup(ns', r.key));
      forall q | q in before ensures Accepts(q, Lookup(ns', q.key)) {
        HasKeyOf(before, q);
        assert Lookup(ns', q.key) == Lookup(ns, q.key);
      }
    }
  }

  lemma HasKeyOf(exprs: seq<Requirement>, r: Requirement)
    requires r in exprs
    ensures HasKey(exprs, r.key)
  {
  }

  lemma HasKeyAppend(exprs: seq<Requirement>, e: Requirement)
    ensures forall k :: HasKey(exprs + [e], k) <==> HasKey(exprs, k) || k == e.key
  {
    assert e in exprs + [e];
    assert forall r :: r in exprs + [e] <==> r in exprs || r == e;
  }

  /** The merged selector matches nothing exactly when some kept requirement cannot be met. */
  lemma MatchesNothingIff(opt: Requirement, existing: Selector)
    ensures var all := [opt] + existing.exprs;
      (forall ns: Labels :: !Matches(Merged(opt, existing), ns)) <==>
      exists r :: r in all && Impossible(existing.labels, First(all, r.key))
  {
    var all, m := [opt] + existing.exprs, Merged(opt, existing);
    assert m.labels == existing.labels;
    DedupKeepsFirsts(all);
    if r :| r in all && Impossible(existing.labels, First(all, r.key)) {
      FirstHasKey(all, r.key);
      var f := First(all, r.key);
      assert f in m.exprs;
      forall ns: Labels ensures !Matches(m, ns) {
      }
    } else {
      forall f | f in m.exprs ensures !Impossible(existing.labels, f) {
        FirstHasKey(all, f.key);
      }
      DedupHasDistinctKeys(all);
      WitnessMatches(existing.labels, m.exprs);
    }
  }

  lemma LeavesOpenIsFirst(opt: Requirement, existing: Selector, key: string, v: Option<string>)
    requires HasKey([opt] + existing.exprs, key)
    ensures var f := First([opt] + existing.exprs, key);
      LeavesOpen(Merged(opt, existing), key, v) <==>
      (key in existing.labels ==> v == Some(existing.labels[key])) && Accepts(f, v)
  {
    var all, m := [opt] + existing.exprs, Merged(opt, existing);
    DedupKeepsFirsts(all);
    FirstHasKey(all, key);
    assert m.labels == existing.labels;
    assert First(all, key) in m.exprs;
  }

  /** The merged selector matches exactly what both match if and only if the selectors themselves say so:
      whether a merge loses something can be checked before it is made. */
  lemma MergedMatchesBothIff(opt: Requirement, existing: Selector)
    ensures MatchesBoth(opt, existing) <==> LosesNothing(opt, existing)
  {
    var all, m := [opt] + existing.exprs, Merged(opt, existing);
    MatchesBothIffImplied(opt, existing);
    MatchesNothingIff(opt, existing);
    forall r | r in existing.exprs
      ensures r in all
      ensures Implies(existing.labels, First(all, r.key), r) <==>
              forall v :: LeavesOpen(m, r.key, v) ==> Accepts(r, v)
    {
      assert r in all;
      FirstHasKey(all, r.key);
      ImpliesIsByValue(existing.labels, First(all, r.key), r);
      forall v ensures LeavesOpen(m, r.key, v) <==>
                       (r.key in existing.labels ==> v == Some(existing.labels[r.key])) && Accepts(First(all, r.key), v)
      {
        LeavesOpenIsFirst(opt, existing, r.key, v);
      }
    }
  }

  /** In particular nothing is lost when the existing keys are pairwise distinct and none of
      them is the operator's. */
  lemma DistinctKeysLoseNothing(opt: Requirement, existing: Selector)
    requires DistinctKeys(existing.exprs)
    requires !HasKey(existing.exprs, opt.key)
    ensures MatchesBoth(opt, existing)
  {
    var all := [opt] + existing.exprs;
    forall i, j | 0 <= i < j < |all| ensures all[i].key != all[j].key {
      assert existing.exprs[j - 1] in existing.exprs;
    }
    DedupKeepsDistinct(all);
    forall r, v | r in existing.exprs && LeavesOpen(Merged(opt, existing), r.key, v) ensures Accepts(r, v) {
      assert r in all;
    }
    MatchesBothIffImplied(opt, existing);
  }

  /** Two exclusions on the same key: the second one is dropped, so the merged selector matches
      a namespace the existing one excludes. */
  lemma SecondExclusionIsLost(opt: Requirement, yes: string, key: string, a: string, b: string)
    requires opt == Requirement(opt.key, In, [yes])
    requires a != b && key != opt.key
    ensures var existing := Selector(map[], [Requirement(key, NotIn, [a]), Requirement(key, NotIn, [b])]);
      var ns := map[opt.key := yes, key := b];
      Matches(Merged(opt, existing), ns) && !Matches(existing, ns)
  {
    var first, second := Requirement(key, NotIn, [a]), Requirement(key, NotIn, [b]);
    ThirdIsDropped(opt, first, second);
    var existing := Selector(map[], [first, second]);
    assert [opt] + existing.exprs == [opt, first, second];
    assert Merged(opt, existing) == Selector(map[], [opt, first]);
    assert second in existing.exprs;
  }

  lemma ThirdIsDropped(opt: Requirement, first: Requirement, second: Requirement)
    requires opt.key != first.key == second.key
    ensures Dedup([opt, first, second]) == [opt, first]
  {
    var all := [opt, first, second];
    assert all[..2] == [opt, first];
    DedupKeepsDistinct([opt, first]);
    assert [opt, first][1] == first;
    assert HasKey([opt, first], second.key);
  }

  /** Merging again changes nothing. */
  lemma MergeIsIdempotent(opt: Requirement, existing: Option<Selector>)
    ensures var once := Merge(Some(OptIn(opt)), existing); Merge(Some(OptIn(opt)), once) == once
  {
    var exprs := if existing.Some? then Dedup([opt] + existing.value.exprs) else [opt];
    if existing.Some? {
      DedupHasDistinctKeys([opt] + existing.value.exprs);
      DedupStartsWithDistinct([opt], existing.value.exprs);
      var m := Merged(opt, existing.value);
      assert Merged(opt, m) == m by {
        PrefixIsAbsorbed(opt, exprs);
        assert m.labels + map[] == m.labels;
      }
    } else {
      PrefixIsAbsorbed(opt, exprs);
    }
  }

  lemma {:induction false} PrefixIsAbsorbed(opt: Requirement, exprs: seq<Requirement>)
    requires DistinctKeys(exprs) && [opt] <= exprs
    ensures Dedup([opt] + exprs) == exprs
  {
    var n := |exprs| - 1;
    assert ([opt] + exprs)[..n + 1] == [opt] + exprs[..n];
    if n == 0 {
      assert exprs == [opt];
      DedupKeepsDistinct([opt]);
      assert opt in [opt] && HasKey([opt], opt.key);
    } else {
      PrefixIsAbsorbed(opt, exprs[..n]);
      assert exprs == exprs[..n] + [exprs[n]];
      assert forall r :: r in exprs[..n] ==> exists i :: 0 <= i < n && exprs[i] == r;
    }
  }
}
