/** Merging required object metadata into existing metadata, as library-go's resourcemerge does.

    Go ranges over a map in any order, so the order in which keys are visited is an input here. */
module MetadataMerge {
  import opened Strings

  type StringMap = map<string, string>

  // ---- Labels and annotations ----

  /** A required key with a trailing "-" asks for the key without it to be removed. */
  predicate Removal(key: string) {
    HasSuffix(key, "-")
  }

  function Target(key: string): string {
    if Removal(key) then TrimRight(key, '-') else key
  }

  function MergeKey(m: StringMap, key: string, v: string): StringMap {
    if Removal(key) then m - {Target(key)} else m[key := v]
  }

  predicate KeySettled(m: StringMap, key: string, v: string) {
    if Removal(key) then Target(key) !in m else key in m && m[key] == v
  }

  /** Nothing of the required map is left to do. */
  predicate Settled(m: StringMap, required: StringMap) {
    forall k :: k in required ==> KeySettled(m, k, required[k])
  }

  ghost predicate IsOrder(order: seq<string>, required: StringMap) {
    forall k :: k in order <==> k in required
  }

  function Merged(m: StringMap, order: seq<string>, required: StringMap): StringMap
    requires forall k :: k in order ==> k in required
  {
    if order == [] then m
    else
      var k := order[|order| - 1];
      MergeKey(Merged(m, order[..|order| - 1], required), k, required[k])
  }

  predicate Modifies(m: StringMap, order: seq<string>, required: StringMap)
    requires forall k :: k in order ==> k in required
  {
    order != [] &&
    var n := |order| - 1;
    || Modifies(m, order[..n], required)
    || !KeySettled(Merged(m, order[..n], required), order[n], required[order[n]])
  }

  lemma MergeStep(m: StringMap, order: seq<string>, i: nat, required: StringMap)
    requires (forall k :: k in order ==> k in required) && i < |order|
    ensures var before, k := Merged(m, order[..i], required), order[i];
      && Merged(m, order[..i + 1], required) == MergeKey(before, k, required[k])
      && (Modifies(m, order[..i + 1], required) <==>
          Modifies(m, order[..i], required) || !KeySettled(before, k, required[k]))
  {
    hide KeySettled, MergeKey;
    assert order[..i + 1][..i] == order[..i];
  }

  method MergeMap(existing: StringMap, required: StringMap, order: seq<string>) returns (merged: StringMap, modified: bool)
    requires IsOrder(order, required)
    ensures merged == Merged(existing, order, required)
    ensures modified <==> Modifies(existing, order, required)
  {
    merged, modified := existing, false;
    assert existing == Merged(existing, order[..0], required) && !Modifies(existing, order[..0], required);
    hide Merged, Modifies, Removal, Target;
    for i := 0 to |order|
      invariant merged == Merged(existing, order[..i], required)
      invariant modified <==> Modifies(existing, order[..i], required)
    {
      MergeStep(existing, order, i, required);
      var k := order[i];
      if Removal(k) {
        if Target(k) in merged {
          merged, modified := merged - {Target(k)}, true;
        } else {
          assert merged - {Target(k)} == merged;
        }
      } else if k !in merged || merged[k] != required[k] {
        merged, modified := merged[k := required[k]], true;
      } else {
        assert merged[k := required[k]] == merged;
      }
    }
    assert order[..|order|] == order;
  }

  /** The merge reports no modification exactly when nothing was left to do, in any order; and
      then it leaves the map alone. */
  lemma {:induction false} UnmodifiedIffSettled(m: StringMap, order: seq<string>, required: StringMap)
    requires forall k :: k in order ==> k in required
    ensures !Modifies(m, order, required) <==> forall k :: k in order ==> KeySettled(m, k, required[k])
    ensures !Modifies(m, order, required) ==> Merged(m, order, required) == m
  {
    hide Removal, Target;
    if order != [] {
      var n := |order| - 1;
      UnmodifiedIffSettled(m, order[..n], required);
      assert forall k :: k in order <==> k in order[..n] || k == order[n];
    }
  }

  /** The required map both sets and removes a key. */
  ghost predicate Conflict(required: StringMap) {
    exists p, r :: p in required && r in required && !Removal(p) && Removal(r) && Target(r) == p
  }

  lemma {:induction false} MergeSettlesPrefix(m: StringMap, order: seq<string>, required: StringMap, key: string)
    requires forall k :: k in order ==> k in required
    requires !Conflict(required) && key in order
    ensures KeySettled(Merged(m, order, required), key, required[key])
  {
    var n := |order| - 1;
    if order[n] != key {
      assert key in order[..n];
      MergeSettlesPrefix(m, order[..n], required, key);
    }
  }

  lemma MergeSettles(m: StringMap, order: seq<string>, required: StringMap)
    requires IsOrder(order, required) && !Conflict(required)
    ensures Settled(Merged(m, order, required), required)
  {
    forall k | k in required ensures KeySettled(Merged(m, order, required), k, required[k]) {
      MergeSettlesPrefix(m, order, required, k);
    }
  }

  /** One merge settles the map, whatever it was and in whatever order, exactly when the required
      map has no conflict. With one, no map at all is settled: every merge modifies. */
  lemma MergeSettlesIff(required: StringMap)
    ensures (forall m, order :: IsOrder(order, required) ==> Settled(Merged(m, order, required), required))
       <==> !Conflict(required)
    ensures Conflict(required) ==> forall m :: !Settled(m, required)
  {
    if Conflict(required) {
      var p, r :| p in required && r in required && !Removal(p) && Removal(r) && Target(r) == p;
      assert forall m :: KeySettled(m, p, required[p]) ==> !KeySettled(m, r, required[r]);
      var order := SomeOrder(required);
      assert !Settled(Merged(map[], order, required), required);
    } else {
      forall m, order | IsOrder(order, required) ensures Settled(Merged(m, order, required), required) {
        MergeSettles(m, order, required);
      }
    }
  }

  lemma {:induction false} SomeOrder(required: StringMap) returns (order: seq<string>)
    ensures IsOrder(order, required)
    decreases |required|
  {
    order := [];
    if required != map[] {
      var k :| k in required;
      order := SomeOrder(required - {k});
      order := order + [k];
      assert forall j :: j in required <==> j in required - {k} || j == k;
    }
  }

  /** A loop over a map visits its keys in some order. */
  method VisitKeys(required: StringMap) returns (order: seq<string>)
    ensures IsOrder(order, required)
  {
    order := [];
    var todo := required.Keys;
    while todo != {}
      invariant todo <= required.Keys
      invariant forall k :: k in order <==> k in required && k !in todo
      decreases |todo|
    {
      var k :| k in todo;
      todo := todo - {k};
      order := order + [k];
    }
  }

  /** Without removals the merge is an override, in any order. */
  lemma {:induction false} MergeOverrides(m: StringMap, order: seq<string>, required: StringMap)
    requires forall k :: k in order ==> k in required
    requires forall k :: k in required ==> !Removal(k)
    ensures Merged(m, order, required) == m + (map k | k in order :: required[k])
  {
    hide Removal, Target;
    if order != [] {
      var n := |order| - 1;
      var key := order[n];
      MergeOverrides(m, order[..n], required);
      assert forall k :: k in order <==> k in order[..n] || k == key;
      var before := map k | k in order[..n] :: required[k];
      assert (map k | k in order :: required[k]) == before[key := required[key]];
      assert (m + before)[key := required[key]] == m + before[key := required[key]];
    }
  }

  /** WithCleanLabelsAndAnnotations: an object is created without the removal keys. */
  function Clean(required: StringMap): StringMap {
    map k | k in required && !Removal(k) :: required[k]
  }

  predicate EndsInDash(key: string) {
    key != "" && key[|key| - 1] == '-'
  }

  /** `request` is the key followed by dashes. */
  predicate AsksToRemove(request: string, key: string) {
    key < request && !EndsInDash(key) && forall i :: |key| <= i < |request| ==> request[i] == '-'
  }

  lemma RemovalIsRequest(request: string, key: string)
    ensures Removal(request) <==> EndsInDash(request)
    ensures Removal(request) && Target(request) == key <==> AsksToRemove(request, key)
  {
    assert request != "" ==> request[|request| - 1..] == [request[|request| - 1]];
    if AsksToRemove(request, key) {
      TrimsTo(request, key);
    }
  }

  lemma {:induction false} TrimsTo(request: string, key: string)
    requires key <= request && !EndsInDash(key) && forall i :: |key| <= i < |request| ==> request[i] == '-'
    ensures TrimRight(request, '-') == key
  {
    if request != key {
      TrimsTo(request[..|request| - 1], key);
    }
  }

  /** What becomes of one key, in any order: a required value is set, a key named with a trailing dash is gone, and
      any other key is left as it was. */
  lemma MergedKey(m: StringMap, order: seq<string>, required: StringMap, key: string)
    requires IsOrder(order, required) && !Conflict(required)
    ensures var merged := Merged(m, order, required);
      && (key in required && !EndsInDash(key) ==> key in merged && merged[key] == required[key])
      && ((exists r :: r in required && AsksToRemove(r, key)) ==> key !in merged)
      && ((key !in required || EndsInDash(key)) && (forall r :: r in required ==> !AsksToRemove(r, key)) ==>
            (key in merged <==> key in m) && (key in m ==> merged[key] == m[key]))
  {
    MergeSettles(m, order, required);
    RemovalIsRequest(key, key);
    forall r | r in required ensures Removal(r) && Target(r) == key <==> AsksToRemove(r, key) {
      RemovalIsRequest(r, key);
    }
    if (key !in required || EndsInDash(key)) && forall r :: r in required ==> !AsksToRemove(r, key) {
      OtherKeyStays(m, order, required, key);
    }
  }

  lemma {:induction false} OtherKeyStays(m: StringMap, order: seq<string>, required: StringMap, key: string)
    requires forall k :: k in order ==> k in required
    requires forall r :: r in order ==> !(Removal(r) && Target(r) == key) && (Removal(r) || r != key)
    ensures var merged := Merged(m, order, required);
      (key in merged <==> key in m) && (key in m ==> merged[key] == m[key])
  {
    if order != [] {
      OtherKeyStays(m, order[..|order| - 1], required, key);
    }
  }

  /** A created object has what is required, less the requests to remove. */
  lemma CleanKey(required: StringMap, key: string)
    ensures key in Clean(required) <==> key in required && !EndsInDash(key)
    ensures key in Clean(required) ==> Clean(required)[key] == required[key]
  {
    RemovalIsRequest(key, key);
  }

  lemma CleanIsSettled(required: StringMap)
    requires !Conflict(required)
    ensures Settled(Clean(required), required)
  {
  }

  // ---- Owner references ----

  // An apiVersion string, parsed.
  datatype ApiVersion = Parsed(group: string, version: string) | Unparseable(text: string)

  datatype OwnerRef = OwnerRef(api: ApiVersion, kind: string, name: string, uid: string)

  predicate SameOwner(a: OwnerRef, b: OwnerRef) {
    && a.name == b.name && a.kind == b.kind
    && a.api.Parsed? && b.api.Parsed? && a.api.group == b.api.group
  }

  function IndexOfOwner(owners: seq<OwnerRef>, o: OwnerRef): (i: nat)
    ensures i <= |owners|
    ensures i < |owners| ==> SameOwner(o, owners[i])
    ensures forall j :: 0 <= j < i ==> !SameOwner(o, owners[j])
  {
    if owners == [] || SameOwner(o, owners[0]) then 0 else 1 + IndexOfOwner(owners[1..], o)
  }

  predicate OwnerSettled(owners: seq<OwnerRef>, o: OwnerRef) {
    var i := IndexOfOwner(owners, o);
    if Removal(o.uid) then i == |owners| else i < |owners| && owners[i] == o
  }

  function MergeOwner(owners: seq<OwnerRef>, o: OwnerRef): seq<OwnerRef> {
    var i := IndexOfOwner(owners, o);
    if i == |owners| then (if Removal(o.uid) then owners else owners + [o])
    else if Removal(o.uid) then owners[..i] + owners[i + 1..]
    else owners[i := o]
  }

  function MergedOwners(owners: seq<OwnerRef>, required: seq<OwnerRef>): seq<OwnerRef> {
    if required == [] then owners
    else MergeOwner(MergedOwners(owners, required[..|required| - 1]), required[|required| - 1])
  }

  predicate ModifiesOwners(owners: seq<OwnerRef>, required: seq<OwnerRef>) {
    required != [] &&
    var n := |required| - 1;
    ModifiesOwners(owners, required[..n]) || !OwnerSettled(MergedOwners(owners, required[..n]), required[n])
  }

  lemma FirstMatchIsIndex(owners: seq<OwnerRef>, o: OwnerRef, at: nat)
    requires at <= |owners| && (at < |owners| ==> SameOwner(o, owners[at]))
    requires forall j :: 0 <= j < at ==> !SameOwner(o, owners[j])
    ensures at == IndexOfOwner(owners, o)
  {
    hide SameOwner;
  }

  lemma MergeOwnersStep(owners: seq<OwnerRef>, required: seq<OwnerRef>, i: nat)
    requires i < |required|
    ensures var before := MergedOwners(owners, required[..i]);
      && MergedOwners(owners, required[..i + 1]) == MergeOwner(before, required[i])
      && (ModifiesOwners(owners, required[..i + 1]) <==>
          ModifiesOwners(owners, required[..i]) || !OwnerSettled(before, required[i]))
  {
    hide MergeOwner, OwnerSettled;
    assert required[..i + 1][..i] == required[..i];
  }

  method MergeOwnerRefs(existing: seq<OwnerRef>, required: seq<OwnerRef>) returns (owners: seq<OwnerRef>, modified: bool)
    ensures owners == MergedOwners(existing, required)
    ensures modified <==> ModifiesOwners(existing, required)
  {
    hide MergedOwners, ModifiesOwners, MergeOwner, OwnerSettled, Removal, IndexOfOwner, SameOwner;
    owners, modified := existing, false;
    NothingMerged(existing, required);
    for i := 0 to |required|
      invariant owners == MergedOwners(existing, required[..i])
      invariant modified <==> ModifiesOwners(existing, required[..i])
    {
      MergeOwnersStep(existing, required, i);
      var o := required[i];
      var at := 0;
      while at < |owners| && !SameOwner(o, owners[at])
        invariant at <= |owners|
        invariant forall j :: 0 <= j < at ==> !SameOwner(o, owners[j])
      {
        at := at + 1;
      }
      FirstMatchIsIndex(owners, o, at);
      MergeOwnerAt(owners, o);
      if at == |owners| {
        if !Removal(o.uid) {
          owners, modified := owners + [o], true;
        }
      } else if Removal(o.uid) {
        owners, modified := owners[..at] + owners[at + 1..], true;
      } else if o != owners[at] {
        owners, modified := owners[at := o], true;
      }
    }
    assert required[..|required|] == required;
  }

  lemma NothingMerged(owners: seq<OwnerRef>, required: seq<OwnerRef>)
    ensures MergedOwners(owners, required[..0]) == owners && !ModifiesOwners(owners, required[..0])
  {
  }

  lemma MergeOwnerAt(owners: seq<OwnerRef>, o: OwnerRef)
    ensures var at := IndexOfOwner(owners, o);
      && at <= |owners|
      && MergeOwner(owners, o) ==
         (if at == |owners| then (if Removal(o.uid) then owners else owners + [o])
          else if Removal(o.uid) then owners[..at] + owners[at + 1..]
          else if o != owners[at] then owners[at := o] else owners)
      && (OwnerSettled(owners, o) <==>
            if at == |owners| then Removal(o.uid) else !Removal(o.uid) && o == owners[at])
  {
    hide Removal, SameOwner;
    var at := IndexOfOwner(owners, o);
    assert at < |owners| && o == owners[at] ==> owners[at := o] == owners;
  }

  predicate OwnersSettled(owners: seq<OwnerRef>, required: seq<OwnerRef>) {
    forall o :: o in required ==> OwnerSettled(owners, o)
  }

  lemma {:induction false} OwnersUnmodifiedIffSettled(owners: seq<OwnerRef>, required: seq<OwnerRef>)
    ensures !ModifiesOwners(owners, required) <==> OwnersSettled(owners, required)
    ensures !ModifiesOwners(owners, required) ==> MergedOwners(owners, required) == owners
  {
    if required != [] {
      var n := |required| - 1;
      OwnersUnmodifiedIffSettled(owners, required[..n]);
      assert forall o :: o in required <==> o in required[..n] || o == required[n];
    }
  }

  /** References that are to stay have a readable API version, those that are to go have none (and so match
      nothing), and references to one owner are all equal. */
  predicate StableOwners(required: seq<OwnerRef>) {
    && (forall o :: o in required ==> (o.api.Parsed? <==> !Removal(o.uid)))
    && (forall o, p :: o in required && p in required && SameOwner(o, p) ==> o == p)
  }

  lemma MergeOwnerKeepsOthers(owners: seq<OwnerRef>, o: OwnerRef, other: OwnerRef)
    requires OwnerSettled(owners, other) && !Removal(other.uid) && !Removal(o.uid)
    requires !SameOwner(other, o) && other.api.Parsed?
    ensures OwnerSettled(MergeOwner(owners, o), other)
  {
    hide Removal;
    var f := IndexOfOwner(owners, other);
    var after := MergeOwner(owners, o);
    assert after[f] == other;
    assert forall j :: 0 <= j < f ==> !SameOwner(other, after[j]);
    assert IndexOfOwner(after, other) == f;
  }

  lemma MergeOwnerSettles(owners: seq<OwnerRef>, o: OwnerRef)
    requires !Removal(o.uid) && o.api.Parsed?
    ensures OwnerSettled(MergeOwner(owners, o), o)
  {
    hide Removal;
    var i := IndexOfOwner(owners, o);
    var after := MergeOwner(owners, o);
    assert after[i] == o;
    assert forall j :: 0 <= j < i ==> after[j] == owners[j];
    assert IndexOfOwner(after, o) == i;
  }

  /** A reference without a readable API version matches nothing. */
  lemma UnparseableMatchesNothing(owners: seq<OwnerRef>, o: OwnerRef)
    requires o.api.Unparseable?
    ensures IndexOfOwner(owners, o) == |owners|
  {
  }

  lemma {:induction false} MergeSettlesOwners(owners: seq<OwnerRef>, required: seq<OwnerRef>)
    requires StableOwners(required)
    ensures OwnersSettled(MergedOwners(owners, required), required)
  {
    if required != [] {
      var before, last := required[..|required| - 1], required[|required| - 1];
      assert required == before + [last];
      MergeSettlesOwners(owners, before);
      var merged := MergedOwners(owners, before);
      hide MergedOwners, Removal;
      forall o | o in required ensures OwnerSettled(MergeOwner(merged, last), o) {
        StepSettles(merged, before, last, o);
      }
    }
  }

  lemma StepSettles(merged: seq<OwnerRef>, before: seq<OwnerRef>, last: OwnerRef, o: OwnerRef)
    requires StableOwners(before + [last]) && OwnersSettled(merged, before) && o in before + [last]
    ensures OwnerSettled(MergeOwner(merged, last), o)
  {
    hide Removal;
    assert last in before + [last];
    if o.api.Unparseable? {
      UnparseableMatchesNothing(MergeOwner(merged, last), o);
    } else if last.api.Unparseable? {
      UnparseableMatchesNothing(merged, last);
    } else if SameOwner(o, last) {
      MergeOwnerSettles(merged, last);
    } else {
      MergeOwnerKeepsOthers(merged, last, o);
    }
  }

  /** How many of the references are to this owner. */
  function Count(owners: seq<OwnerRef>, o: OwnerRef): nat {
    if owners == [] then 0 else (if SameOwner(o, owners[0]) then 1 else 0) + Count(owners[1..], o)
  }

  lemma {:induction false} CountSplits(a: seq<OwnerRef>, b: seq<OwnerRef>, o: OwnerRef)
    ensures Count(a + b, o) == Count(a, o) + Count(b, o)
  {
    if a == [] {
      assert a + b == b;
    } else {
      assert (a + b)[1..] == a[1..] + b;
      CountSplits(a[1..], b, o);
    }
  }

  lemma {:induction false} CountMeansMatched(owners: seq<OwnerRef>, o: OwnerRef)
    ensures Count(owners, o) > 0 <==> IndexOfOwner(owners, o) < |owners|
  {
    if owners != [] {
      CountMeansMatched(owners[1..], o);
    }
  }

  /** One required reference takes away at most one reference to any owner. */
  lemma MergeOwnerTakesOne(owners: seq<OwnerRef>, p: OwnerRef, o: OwnerRef)
    ensures Count(MergeOwner(owners, p), o) + 1 >= Count(owners, o)
  {
    hide Removal;
    var i := IndexOfOwner(owners, p);
    if i == |owners| {
      CountSplits(owners, [p], o);
    } else {
      assert owners == owners[..i] + [owners[i]] + owners[i + 1..];
      CountSplits(owners[..i] + [owners[i]], owners[i + 1..], o);
      CountSplits(owners[..i], [owners[i]], o);
      CountSplits(owners[..i], owners[i + 1..], o);
      assert owners[i := p] == owners[..i] + [p] + owners[i + 1..];
      CountSplits(owners[..i] + [p], owners[i + 1..], o);
      CountSplits(owners[..i], [p], o);
    }
  }

  lemma {:induction false} MergedOwnersTakeFew(owners: seq<OwnerRef>, required: seq<OwnerRef>, o: OwnerRef)
    ensures Count(MergedOwners(owners, required), o) + |required| >= Count(owners, o)
  {
    if required != [] {
      var n := |required| - 1;
      MergedOwnersTakeFew(owners, required[..n], o);
      MergeOwnerTakesOne(MergedOwners(owners, required[..n]), required[n], o);
    }
  }

  function Copies(o: OwnerRef, n: nat): seq<OwnerRef> {
    if n == 0 then [] else [o] + Copies(o, n - 1)
  }

  lemma {:induction false} CountCopies(o: OwnerRef, n: nat)
    requires o.api.Parsed?
    ensures Count(Copies(o, n), o) == n
  {
    if n > 0 {
      assert Copies(o, n)[1..] == Copies(o, n - 1);
      CountCopies(o, n - 1);
    }
  }

  lemma {:induction false} SameOwnerSameIndex(owners: seq<OwnerRef>, o: OwnerRef, p: OwnerRef)
    requires SameOwner(o, p)
    ensures IndexOfOwner(owners, o) == IndexOfOwner(owners, p)
  {
    if owners != [] {
      SameOwnerSameIndex(owners[1..], o, p);
    }
  }

  /** Where the required references are not stable, some list is left unsettled. */
  lemma UnstableOwnersNeverSettle(required: seq<OwnerRef>) returns (owners: seq<OwnerRef>)
    requires !StableOwners(required)
    ensures !OwnersSettled(MergedOwners(owners, required), required)
  {
    owners := [];
    if o :| o in required && o.api.Unparseable? && !Removal(o.uid) {
      UnparseableMatchesNothing(MergedOwners(owners, required), o);
    } else if o :| o in required && o.api.Parsed? && Removal(o.uid) {
      owners := Copies(o, |required| + 1);
      CountCopies(o, |required| + 1);
      MergedOwnersTakeFew(owners, required, o);
      CountMeansMatched(MergedOwners(owners, required), o);
    } else {
      var o, p :| o in required && p in required && SameOwner(o, p) && o != p;
      SameOwnerSameIndex(MergedOwners(owners, required), o, p);
    }
  }

  /** One merge settles every list of owner references if and only if the required ones are stable. */
  lemma MergeSettlesOwnersIff(required: seq<OwnerRef>)
    ensures (forall owners :: OwnersSettled(MergedOwners(owners, required), required)) <==> StableOwners(required)
  {
    hide MergedOwners, OwnersSettled, StableOwners;
    if StableOwners(required) {
      forall owners ensures OwnersSettled(MergedOwners(owners, required), required) {
        MergeSettlesOwners(owners, required);
      }
    } else {
      var owners := UnstableOwnersNeverSettle(required);
    }
  }

  /** The two references are to one owner: the versions may differ, and an unreadable one is nobody's. */
  predicate OneOwner(a: OwnerRef, b: OwnerRef) {
    a.kind == b.kind && a.name == b.name && a.api.Parsed? && b.api.Parsed? && a.api.group == b.api.group
  }

  /** What becomes of the references: those to owners that are not mentioned stay, and nothing comes in that was
      not required. */
  lemma {:induction false} MergedOwner(owners: seq<OwnerRef>, required: seq<OwnerRef>, o: OwnerRef)
    ensures o in owners && (forall r :: r in required ==> !OneOwner(r, o)) ==> o in MergedOwners(owners, required)
    ensures o in MergedOwners(owners, required) ==> o in owners || (o in required && !EndsInDash(o.uid))
  {
    if required != [] {
      var before, last := required[..|required| - 1], required[|required| - 1];
      assert required == before + [last];
      MergedOwner(owners, before, o);
      RemovalIsRequest(last.uid, last.uid);
      var merged := MergedOwners(owners, before);
      hide MergedOwners, Removal;
      MergeOwnerHas(merged, last, o);
      assert last in required && forall r :: r in before ==> r in required;
      assert SameOwner(last, o) <==> OneOwner(last, o);
    }
  }

  lemma MergeOwnerHas(owners: seq<OwnerRef>, last: OwnerRef, o: OwnerRef)
    ensures o in owners && !SameOwner(last, o) ==> o in MergeOwner(owners, last)
    ensures o in MergeOwner(owners, last) ==> o in owners || (o == last && !Removal(last.uid))
  {
    hide Removal;
    var i := IndexOfOwner(owners, last);
    if i < |owners| {
      assert owners == owners[..i] + [owners[i]] + owners[i + 1..];
      assert owners[i := last] == owners[..i] + [last] + owners[i + 1..];
    }
  }

  function CleanOwners(required: seq<OwnerRef>): seq<OwnerRef> {
    if required == [] then []
    else
      var o := required[|required| - 1];
      CleanOwners(required[..|required| - 1]) + if Removal(o.uid) then [] else [o]
  }

  lemma {:induction false} CleanOwnersHas(required: seq<OwnerRef>)
    ensures forall o :: o in CleanOwners(required) <==> o in required && !Removal(o.uid)
  {
    hide Removal;
    if required != [] {
      CleanOwnersHas(required[..|required| - 1]);
      assert required == required[..|required| - 1] + [required[|required| - 1]];
    }
  }

  lemma CleanOwnersAreSettled(required: seq<OwnerRef>)
    requires StableOwners(required)
    ensures OwnersSettled(CleanOwners(required), required)
  {
    var clean := CleanOwners(required);
    CleanOwnersHas(required);
    hide Removal, CleanOwners;
    forall o | o in required ensures OwnerSettled(clean, o) {
      var i := IndexOfOwner(clean, o);
      if o.api.Parsed? {
        var j :| 0 <= j < |clean| && clean[j] == o;
        assert SameOwner(o, clean[j]);
        assert clean[i] in required;
      } else {
        UnparseableMatchesNothing(clean, o);
      }
    }
  }

  // ---- All of it ----

  datatype Meta = Meta(labels: StringMap, annotations: StringMap, owners: seq<OwnerRef>)

  /** The orders in which one call visits the required labels and annotations. */
  datatype Orders = Orders(labels: seq<string>, annotations: seq<string>)

  ghost predicate OrdersOf(ord: Orders, required: Meta) {
    IsOrder(ord.labels, required.labels) && IsOrder(ord.annotations, required.annotations)
  }

  function MergedMeta(existing: Meta, required: Meta, ord: Orders): Meta
    requires OrdersOf(ord, required)
  {
    Meta(Merged(existing.labels, ord.labels, required.labels),
         Merged(existing.annotations, ord.annotations, required.annotations),
         MergedOwners(existing.owners, required.owners))
  }

  predicate ModifiesMeta(existing: Meta, required: Meta, ord: Orders)
    requires OrdersOf(ord, required)
  {
    || Modifies(existing.labels, ord.labels, required.labels)
    || Modifies(existing.annotations, ord.annotations, required.annotations)
    || ModifiesOwners(existing.owners, required.owners)
  }

  method EnsureObjectMeta(existing: Meta, required: Meta, ord: Orders) returns (merged: Meta, modified: bool)
    requires OrdersOf(ord, required)
    ensures merged == MergedMeta(existing, required, ord)
    ensures modified <==> ModifiesMeta(existing, required, ord)
  {
    var labels, m1 := MergeMap(existing.labels, required.labels, ord.labels);
    var annotations, m2 := MergeMap(existing.annotations, required.annotations, ord.annotations);
    var owners, m3 := MergeOwnerRefs(existing.owners, required.owners);
    return Meta(labels, annotations, owners), m1 || m2 || m3;
  }

  function CleanMeta(required: Meta): Meta {
    Meta(Clean(required.labels), Clean(required.annotations), CleanOwners(required.owners))
  }

  /** No key is both set and removed, and the owner references are stable. */
  ghost predicate StableMeta(required: Meta) {
    !Conflict(required.labels) && !Conflict(required.annotations) && StableOwners(required.owners)
  }

  predicate MetaSettled(existing: Meta, required: Meta) {
    && Settled(existing.labels, required.labels)
    && Settled(existing.annotations, required.annotations)
    && OwnersSettled(existing.owners, required.owners)
  }

  lemma MetaUnmodifiedIffSettled(existing: Meta, required: Meta, ord: Orders)
    requires OrdersOf(ord, required)
    ensures !ModifiesMeta(existing, required, ord) <==> MetaSettled(existing, required)
  {
    UnmodifiedIffSettled(existing.labels, ord.labels, required.labels);
    UnmodifiedIffSettled(existing.annotations, ord.annotations, required.annotations);
    OwnersUnmodifiedIffSettled(existing.owners, required.owners);
  }

  /** A merge leaves metadata that no further merge modifies. */
  lemma MetaMergeSettles(existing: Meta, required: Meta, ord: Orders)
    requires OrdersOf(ord, required) && StableMeta(required)
    ensures MetaSettled(MergedMeta(existing, required, ord), required)
  {
    MergeSettles(existing.labels, ord.labels, required.labels);
    MergeSettles(existing.annotations, ord.annotations, required.annotations);
    MergeSettlesOwners(existing.owners, required.owners);
  }

  /** And it does so whatever the metadata was, in whatever order, exactly for a stable want. */
  lemma MetaMergeSettlesIff(required: Meta)
    ensures (forall existing, ord :: OrdersOf(ord, required) ==> MetaSettled(MergedMeta(existing, required, ord), required))
       <==> StableMeta(required)
  {
    if StableMeta(required) {
      forall existing, ord | OrdersOf(ord, required)
        ensures MetaSettled(MergedMeta(existing, required, ord), required)
      {
        MetaMergeSettles(existing, required, ord);
      }
    } else {
      var existing, ord := UnstableMetaNeverSettles(required);
    }
  }

  lemma UnstableMetaNeverSettles(required: Meta) returns (existing: Meta, ord: Orders)
    requires !StableMeta(required)
    ensures OrdersOf(ord, required) && !MetaSettled(MergedMeta(existing, required, ord), required)
  {
    var labels := SomeOrder(required.labels);
    var annotations := SomeOrder(required.annotations);
    ord := Orders(labels, annotations);
    MergeSettlesIff(required.labels);
    MergeSettlesIff(required.annotations);
    var owners := [];
    if !StableOwners(required.owners) {
      owners := UnstableOwnersNeverSettle(required.owners);
    }
    existing := Meta(map[], map[], owners);
  }

  /** So does a creation. */
  lemma CleanMetaIsSettled(required: Meta)
    requires StableMeta(required)
    ensures MetaSettled(CleanMeta(required), required)
  {
    CleanIsSettled(required.labels);
    CleanIsSettled(required.annotations);
    CleanOwnersAreSettled(required.owners);
  }
}
