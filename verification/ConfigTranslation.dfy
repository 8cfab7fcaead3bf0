/** Compiling the operator's API into the Kueue configuration: device-class mappings with their
    feature gates, and the string names of external frameworks. */
module ConfigTranslation {
  import opened Options
  import opened Strings

  // ---- Device-class mappings ----

  const COUNTER := "Counter"
  const CAPACITY := "Capacity"

  // A counter or capacity block; `cel` is empty where no selector is given.
  datatype Block = Block(name: string, driver: string, cel: string)

  datatype Source = Source(typ: string, counter: Block, capacity: Block)

  datatype Mapping = Mapping(name: string, deviceClassNames: seq<string>, sources: seq<Source>)

  datatype Rendered =
    | RenderedCounter(name: string, driver: string, selector: Option<string>)
    | RenderedCapacity(name: string, driver: string, selector: Option<string>)

  datatype RenderedMapping = RenderedMapping(name: string, deviceClassNames: seq<string>, sources: seq<Rendered>)

  function SelectorOf(cel: string): Option<string> {
    if cel != "" then Some(cel) else None
  }

  function RenderSource(s: Source, enabled: bool): seq<Rendered> {
    if s.typ == COUNTER then
      [RenderedCounter(s.counter.name, s.counter.driver, SelectorOf(s.counter.cel))]
    else if s.typ == CAPACITY && enabled then
      [RenderedCapacity(s.capacity.name, s.capacity.driver, SelectorOf(s.capacity.cel))]
    else []
  }

  function RenderSources(sources: seq<Source>, enabled: bool): seq<Rendered> {
    if sources == [] then []
    else RenderSources(sources[..|sources| - 1], enabled) + RenderSource(sources[|sources| - 1], enabled)
  }

  function Render(m: Mapping, enabled: bool): RenderedMapping {
    RenderedMapping(m.name, m.deviceClassNames, RenderSources(m.sources, enabled))
  }

  /** The rendering says what the source says: its kind, name and driver, and the selector if there is one. */
  predicate SaysSame(r: Rendered, s: Source) {
    if s.typ == "Counter" then
      && r.RenderedCounter? && r.name == s.counter.name && r.driver == s.counter.driver
      && r.selector == if s.counter.cel == "" then None else Some(s.counter.cel)
    else
      && s.typ == "Capacity"
      && r.RenderedCapacity? && r.name == s.capacity.name && r.driver == s.capacity.driver
      && r.selector == if s.capacity.cel == "" then None else Some(s.capacity.cel)
  }

  /** The sources at these positions, and no others, are rendered, in order. */
  predicate RendersAt(rendered: seq<Rendered>, sources: seq<Source>, at: seq<nat>, enabled: bool) {
    && |at| == |rendered|
    && (forall j :: 0 <= j < |at| ==> at[j] < |sources| && SaysSame(rendered[j], sources[at[j]]))
    && (forall i, j :: 0 <= i < j < |at| ==> at[i] < at[j])
    && (forall k: nat :: k < |sources| ==>
          (k in at <==> sources[k].typ == "Counter" || (sources[k].typ == "Capacity" && enabled)))
  }

  lemma RenderedSaysSame(s: Source, enabled: bool)
    ensures var r := RenderSource(s, enabled);
      if s.typ == "Counter" || (s.typ == "Capacity" && enabled) then |r| == 1 && SaysSame(r[0], s) else r == []
  {
  }

  lemma {:induction false} RenderedAreSelected(sources: seq<Source>, enabled: bool) returns (at: seq<nat>)
    ensures RendersAt(RenderSources(sources, enabled), sources, at, enabled)
  {
    hide SaysSame, RenderSource;
    at := [];
    if sources != [] {
      var n := |sources| - 1;
      at := RenderedAreSelected(sources[..n], enabled);
      RenderedSaysSame(sources[n], enabled);
      if RenderSource(sources[n], enabled) != [] {
        at := at + [n];
      }
    }
  }

  /** With the flag on and types the API allows, every source is rendered, at its own place. */
  lemma AllAreRendered(rendered: seq<Rendered>, sources: seq<Source>, at: seq<nat>)
    requires RendersAt(rendered, sources, at, true)
    requires KnownTypes(sources)
    ensures |rendered| == |sources|
    ensures forall j :: 0 <= j < |sources| ==> SaysSame(rendered[j], sources[j])
  {
    assert forall k: nat :: k < |sources| ==> sources[k] in sources && k in at;
    FullSelection(at, |sources|);
  }

  lemma {:induction false} FullSelection(at: seq<nat>, n: nat)
    requires forall i, j :: 0 <= i < j < |at| ==> at[i] < at[j]
    requires (forall k: nat :: k < n ==> k in at) && forall j :: 0 <= j < |at| ==> at[j] < n
    ensures |at| == n && forall j :: 0 <= j < n ==> at[j] == j
  {
    assert at != [] ==> at[0] < n;
    if n > 0 {
      assert n - 1 in at;
      var last := |at| - 1;
      var j :| 0 <= j < |at| && at[j] == n - 1;
      var rest := at[..last];
      forall k: nat | k < n - 1 ensures k in rest {
        assert k in at;
        var i :| 0 <= i < |at| && at[i] == k;
        assert rest[i] == k;
      }
      forall i | 0 <= i < last ensures rest[i] < n - 1 {
        assert at[i] < at[last];
      }
      FullSelection(rest, n - 1);
    }
  }

  /** The Counter sources, and with the flag on the Capacity ones, are rendered in their order. */
  ghost predicate Selected(rendered: seq<Rendered>, sources: seq<Source>, enabled: bool) {
    exists at :: RendersAt(rendered, sources, at, enabled)
  }

  predicate KnownTypes(sources: seq<Source>) {
    forall s :: s in sources ==> s.typ == "Counter" || s.typ == "Capacity"
  }

  lemma RenderIsFaithful(m: Mapping, enabled: bool)
    ensures Selected(Render(m, enabled).sources, m.sources, enabled)
    ensures enabled && KnownTypes(m.sources) ==>
      && |Render(m, enabled).sources| == |m.sources|
      && forall j :: 0 <= j < |m.sources| ==> SaysSame(Render(m, enabled).sources[j], m.sources[j])
  {
    hide RenderSources, RendersAt, SaysSame;
    var at := RenderedAreSelected(m.sources, enabled);
    assert Render(m, enabled).sources == RenderSources(m.sources, enabled);
    if enabled && KnownTypes(m.sources) {
      AllAreRendered(RenderSources(m.sources, enabled), m.sources, at);
    }
  }

  lemma RenderingsAreFaithful(mappings: seq<Mapping>, rendered: seq<RenderedMapping>, enabled: bool)
    requires |rendered| == |mappings| && forall i :: 0 <= i < |mappings| ==> rendered[i] == Render(mappings[i], enabled)
    ensures forall i :: 0 <= i < |mappings| ==>
      && rendered[i].name == mappings[i].name
      && rendered[i].deviceClassNames == mappings[i].deviceClassNames
      && Selected(rendered[i].sources, mappings[i].sources, enabled)
    ensures enabled ==> forall i :: 0 <= i < |mappings| ==>
      KnownTypes(mappings[i].sources) ==>
        && |rendered[i].sources| == |mappings[i].sources|
        && forall j :: 0 <= j < |mappings[i].sources| ==> SaysSame(rendered[i].sources[j], mappings[i].sources[j])
  {
    hide *;
    forall i | 0 <= i < |mappings|
      ensures rendered[i].name == mappings[i].name
      ensures rendered[i].deviceClassNames == mappings[i].deviceClassNames
      ensures Selected(rendered[i].sources, mappings[i].sources, enabled)
      ensures enabled && KnownTypes(mappings[i].sources) ==>
        && |rendered[i].sources| == |mappings[i].sources|
        && forall j :: 0 <= j < |mappings[i].sources| ==> SaysSame(rendered[i].sources[j], mappings[i].sources[j])
    {
      RenderKeepsNames(mappings[i], enabled);
      RenderIsFaithful(mappings[i], enabled);
    }
  }

  lemma RenderKeepsNames(m: Mapping, enabled: bool)
    ensures Render(m, enabled).name == m.name && Render(m, enabled).deviceClassNames == m.deviceClassNames
  {
  }

  /** nil (None) when there is nothing to map. */
  method BuildResources(mappings: seq<Mapping>, enabled: bool) returns (r: Option<seq<RenderedMapping>>)
    ensures r.None? <==> mappings == []
    ensures r.Some? ==> |r.value| == |mappings|
    ensures r.Some? ==> forall i :: 0 <= i < |mappings| ==> r.value[i] == Render(mappings[i], enabled)
    ensures r.Some? ==> forall i :: 0 <= i < |mappings| ==>
      && r.value[i].name == mappings[i].name
      && r.value[i].deviceClassNames == mappings[i].deviceClassNames
      && Selected(r.value[i].sources, mappings[i].sources, enabled)
    ensures r.Some? && enabled ==> forall i :: 0 <= i < |mappings| ==>
      KnownTypes(mappings[i].sources) ==>
        && |r.value[i].sources| == |mappings[i].sources|
        && forall j :: 0 <= j < |mappings[i].sources| ==> SaysSame(r.value[i].sources[j], mappings[i].sources[j])
  {
    hide Selected, SaysSame, KnownTypes;
    if |mappings| == 0 {
      return None;
    }
    var rendered: seq<RenderedMapping> := [];
    for i := 0 to |mappings|
      invariant |rendered| == i && forall j :: 0 <= j < i ==> rendered[j] == Render(mappings[j], enabled)
    {
      var m := mappings[i];
      var sources: seq<Rendered> := [];
      for k := 0 to |m.sources|
        invariant sources == RenderSources(m.sources[..k], enabled)
      {
        var s := m.sources[k];
        assert m.sources[..k + 1][..k] == m.sources[..k];
        if s.typ == COUNTER {
          sources := sources + [RenderedCounter(s.counter.name, s.counter.driver, SelectorOf(s.counter.cel))];
        } else if s.typ == CAPACITY {
          if !enabled { continue; }
          sources := sources + [RenderedCapacity(s.capacity.name, s.capacity.driver, SelectorOf(s.capacity.cel))];
        }
      }
      assert m.sources[..|m.sources|] == m.sources;
      rendered := rendered + [RenderedMapping(m.name, m.deviceClassNames, sources)];
    }
    RenderingsAreFaithful(mappings, rendered, enabled);
    return Some(rendered);
  }

  ghost predicate Declares(mappings: seq<Mapping>, typ: string) {
    exists m, s :: m in mappings && s in m.sources && s.typ == typ
  }

  method HasSourceOfType(mappings: seq<Mapping>, typ: string) returns (found: bool)
    ensures found <==> (typ == COUNTER || typ == CAPACITY) && Declares(mappings, typ)
  {
    for i := 0 to |mappings|
      invariant typ == COUNTER || typ == CAPACITY ==> !Declares(mappings[..i], typ)
    {
      var m := mappings[i];
      for k := 0 to |m.sources|
        invariant typ == COUNTER || typ == CAPACITY ==> forall s :: s in m.sources[..k] ==> s.typ != typ
      {
        var s := m.sources[k];
        if typ == COUNTER {
          if s.typ == COUNTER { assert m in mappings && s in m.sources; return true; }
        } else if typ == CAPACITY {
          if s.typ == CAPACITY { assert m in mappings && s in m.sources; return true; }
        }
      }
      assert m.sources[..|m.sources|] == m.sources;
      assert mappings[..i + 1] == mappings[..i] + [m];
    }
    assert mappings[..|mappings|] == mappings;
    return false;
  }

  const CONSUMABLE_GATE := "KueueDRAIntegrationConsumableCapacity"

  // The other inputs of the feature gates, reduced to what is asked of them.
  datatype OtherGates = OtherGates(spark: bool, externalFrameworks: bool, customLabels: bool)

  function GateSet(consumable: bool, o: OtherGates): set<string> {
    (if consumable then {CONSUMABLE_GATE} else {}) +
    (if o.spark then {"SparkApplicationIntegration"} else {}) +
    (if o.externalFrameworks then {"ShortWorkloadNames"} else {}) +
    (if o.customLabels then {"CustomMetricLabels"} else {})
  }

  /** The gates that are set to true; nil (None) when there are none. */
  method BuildFeatureGates(mappings: seq<Mapping>, enabled: bool, o: OtherGates) returns (gates: Option<set<string>>)
    ensures var on := GateSet(enabled && Declares(mappings, CAPACITY), o);
      gates == if on == {} then None else Some(on)
    ensures gates.None? <==>
      !(enabled && Declares(mappings, CAPACITY)) && !o.spark && !o.externalFrameworks && !o.customLabels
    ensures gates.Some? ==> forall g :: g in gates.value <==>
      || (g == "KueueDRAIntegrationConsumableCapacity" && enabled && Declares(mappings, "Capacity"))
      || (g == "SparkApplicationIntegration" && o.spark)
      || (g == "ShortWorkloadNames" && o.externalFrameworks)
      || (g == "CustomMetricLabels" && o.customLabels)
  {
    var declared := false;
    if enabled {
      declared := HasSourceOfType(mappings, CAPACITY);
    }
    var table := [
      (CONSUMABLE_GATE, declared),
      ("SparkApplicationIntegration", o.spark),
      ("ShortWorkloadNames", o.externalFrameworks),
      ("CustomMetricLabels", o.customLabels)];
    var on: set<string> := {};
    for i := 0 to |table|
      invariant on == (if i > 0 && declared then {CONSUMABLE_GATE} else {}) +
                      (if i > 1 && o.spark then {"SparkApplicationIntegration"} else {}) +
                      (if i > 2 && o.externalFrameworks then {"ShortWorkloadNames"} else {}) +
                      (if i > 3 && o.customLabels then {"CustomMetricLabels"} else {})
    {
      if table[i].1 {
        on := on + {table[i].0};
      }
    }
    return if on == {} then None else Some(on);
  }

  const MISSING_CONSUMABLE := "DRA Consumable Capacity requires Kubernetes 1.36+ (OCP 4.23+) and the DRAConsumableCapacity feature gate to be enabled"

  method MissingConsumableCapacityDependencies(mappings: seq<Mapping>, enabled: bool) returns (missing: seq<string>)
    ensures missing == if Declares(mappings, CAPACITY) && !enabled then [MISSING_CONSUMABLE] else []
  {
    var declared := HasSourceOfType(mappings, CAPACITY);
    return if declared && !enabled then [MISSING_CONSUMABLE] else [];
  }

  // ---- The three outputs agree ----

  ghost predicate RendersCapacity(mappings: seq<Mapping>, enabled: bool) {
    exists m, r :: m in mappings && r in Render(m, enabled).sources && r.RenderedCapacity?
  }

  lemma {:induction false} CapacityRendersIff(sources: seq<Source>, enabled: bool)
    ensures (exists r :: r in RenderSources(sources, enabled) && r.RenderedCapacity?) <==>
            enabled && exists s :: s in sources && s.typ == CAPACITY
  {
    if sources != [] {
      var n := |sources| - 1;
      CapacityRendersIff(sources[..n], enabled);
      assert forall s :: s in sources <==> s in sources[..n] || s == sources[n];
      assert forall r :: r in RenderSources(sources, enabled) <==>
                         r in RenderSources(sources[..n], enabled) || r in RenderSource(sources[n], enabled);
      if sources[n].typ == CAPACITY && enabled {
        assert RenderSource(sources[n], enabled)[0] in RenderSource(sources[n], enabled);
      }
    }
  }

  /** The condition under which BuildFeatureGates turns the consumable-capacity gate on is that
      the mappings BuildResources renders from the same input contain a capacity source. */
  lemma GateIffCapacityRendered(mappings: seq<Mapping>, enabled: bool, o: OtherGates)
    ensures CONSUMABLE_GATE in GateSet(enabled && Declares(mappings, CAPACITY), o) <==> RendersCapacity(mappings, enabled)
  {
    forall m | m in mappings {
      CapacityRendersIff(m.sources, enabled);
    }
    if enabled && Declares(mappings, CAPACITY) {
      var m, s :| m in mappings && s in m.sources && s.typ == CAPACITY;
      var r :| r in Render(m, enabled).sources && r.RenderedCapacity?;
    }
  }

  /** All three outputs of one configuration and one flag: a declared capacity source is either
      rendered, with the gate on, or reported as missing a dependency, never both. */
  method CompileConsumableCapacity(mappings: seq<Mapping>, enabled: bool, o: OtherGates)
    returns (resources: Option<seq<RenderedMapping>>, gates: Option<set<string>>, missing: seq<string>)
    ensures Declares(mappings, CAPACITY) ==>
              (RendersCapacity(mappings, enabled) && gates.Some? && CONSUMABLE_GATE in gates.value) != (missing != [])
    ensures !Declares(mappings, CAPACITY) ==>
              missing == [] && !RendersCapacity(mappings, enabled) && (gates.Some? ==> CONSUMABLE_GATE !in gates.value)
    ensures resources.Some? ==> |resources.value| == |mappings|
    ensures resources.Some? ==> forall i :: 0 <= i < |mappings| ==> resources.value[i] == Render(mappings[i], enabled)
  {
    resources := BuildResources(mappings, enabled);
    gates := BuildFeatureGates(mappings, enabled, o);
    missing := MissingConsumableCapacityDependencies(mappings, enabled);
    GateIffCapacityRendered(mappings, enabled, o);
  }

  function DropCapacity(sources: seq<Rendered>): seq<Rendered> {
    if sources == [] then []
    else
      var s := sources[|sources| - 1];
      DropCapacity(sources[..|sources| - 1]) + if s.RenderedCapacity? then [] else [s]
  }

  lemma {:induction false} DropCapacityDistributes(a: seq<Rendered>, b: seq<Rendered>)
    ensures DropCapacity(a + b) == DropCapacity(a) + DropCapacity(b)
  {
    if b == [] {
      assert a + b == a;
    } else {
      assert (a + b)[..|a + b| - 1] == a + b[..|b| - 1];
      DropCapacityDistributes(a, b[..|b| - 1]);
    }
  }

  lemma {:induction false} DisabledSourcesDropCapacity(sources: seq<Source>)
    ensures RenderSources(sources, false) == DropCapacity(RenderSources(sources, true))
  {
    if sources != [] {
      var n := |sources| - 1;
      DisabledSourcesDropCapacity(sources[..n]);
      DropCapacityDistributes(RenderSources(sources[..n], true), RenderSource(sources[n], true));
      var last := RenderSource(sources[n], true);
      assert |last| == 1 ==> last[..0] == [];
    }
  }

  /** Rendering with the flag off is rendering with it on and then deleting the capacity sources:
      order, names and counter sources are the same. */
  lemma DisabledIsEnabledWithoutCapacity(m: Mapping)
    ensures Render(m, false) == var on := Render(m, true); on.(sources := DropCapacity(on.sources))
  {
    DisabledSourcesDropCapacity(m.sources);
  }

  // ---- Names of external frameworks ----

  datatype Framework = Framework(group: string, version: string, resource: string)

  predicate Alnum(c: char) {
    'a' <= c <= 'z' || '0' <= c <= '9'
  }

  /** `^[a-z0-9]([-a-z0-9]*[a-z0-9])?$` */
  predicate LabelPattern(s: string) {
    && s != "" && Alnum(s[0]) && Alnum(s[|s| - 1])
    && forall c :: c in s ==> c == '-' || Alnum(c)
  }

  /** Labels joined by periods. */
  predicate SubdomainPattern(s: string) {
    && s != "" && Alnum(s[0]) && Alnum(s[|s| - 1])
    && (forall c :: c in s ==> c == '-' || c == '.' || Alnum(c))
    && (forall i :: 0 < i < |s| - 1 && s[i] == '.' ==> Alnum(s[i - 1]) && Alnum(s[i + 1]))
  }

  /** The validation of the API type. */
  predicate ValidFramework(fw: Framework) {
    SubdomainPattern(fw.group) && LabelPattern(fw.version) && LabelPattern(fw.resource)
  }

  function DottedName(first: string, fw: Framework): string {
    first + "." + (fw.version + "." + fw.group)
  }

  lemma DottedNameIs(first: string, fw: Framework)
    ensures DottedName(first, fw) == first + "." + fw.version + "." + fw.group
  {
  }

  function FirstDot(s: string): (i: nat)
    ensures i <= |s|
    ensures '.' !in s[..i] && (i < |s| ==> s[i] == '.')
  {
    if s == "" || s[0] == '.' then 0 else 1 + FirstDot(s[1..])
  }

  /** Reads "resource.version.group" back: the group is all that follows the second period. */
  function ParseName(name: string): Option<Framework> {
    var i := FirstDot(name);
    if i == |name| then None
    else
      var rest := name[i + 1..];
      var j := FirstDot(rest);
      if j == |rest| then None else Some(Framework(rest[j + 1..], rest[..j], name[..i]))
  }

  lemma {:induction false} FirstDotOf(a: string, b: string)
    requires '.' !in a
    ensures FirstDot(a + "." + b) == |a|
  {
    var s := a + "." + b;
    assert s[|a|] == '.' && s[..|a|] == a;
    assert forall i :: 0 <= i < |a| ==> s[i] == a[i];
  }

  lemma ParseNameOfDotted(fw: Framework)
    requires '.' !in fw.resource && '.' !in fw.version
    ensures ParseName(DottedName(fw.resource, fw)) == Some(fw)
  {
    var rest := fw.version + "." + fw.group;
    FirstDotOf(fw.resource, rest);
    FirstDotOf(fw.version, fw.group);
    var name := DottedName(fw.resource, fw);
    assert name[|fw.resource| + 1..] == rest;
    assert name[..|fw.resource|] == fw.resource;
    assert rest[|fw.version| + 1..] == fw.group && rest[..|fw.version|] == fw.version;
  }

  /** The rendered names of a list of frameworks. */
  function ExternalNames(frameworks: seq<Framework>): seq<string> {
    seq(|frameworks|, i requires 0 <= i < |frameworks| => DottedName(frameworks[i].resource, frameworks[i]))
  }

  method BuildExternalFrameworkList(frameworks: seq<Framework>) returns (names: seq<string>)
    ensures names == ExternalNames(frameworks)
    ensures |names| == |frameworks|
    ensures forall i :: 0 <= i < |names| ==>
      names[i] == frameworks[i].resource + "." + frameworks[i].version + "." + frameworks[i].group
  {
    forall fw: Framework ensures DottedName(fw.resource, fw) == fw.resource + "." + fw.version + "." + fw.group {
      DottedNameIs(fw.resource, fw);
    }
    names := [];
    for i := 0 to |frameworks|
      invariant names == ExternalNames(frameworks[..i])
    {
      names := names + [DottedName(frameworks[i].resource, frameworks[i])];
    }
    assert frameworks[..|frameworks|] == frameworks;
  }

  /** A rendered name splits back into its group, version and resource, so no two valid frameworks render
      alike, and no two lists of them do. */
  lemma ExternalNamesAreReversible(frameworks: seq<Framework>, others: seq<Framework>)
    requires forall fw :: fw in frameworks || fw in others ==> ValidFramework(fw)
    ensures forall i :: 0 <= i < |frameworks| ==> ParseName(ExternalNames(frameworks)[i]) == Some(frameworks[i])
    ensures ExternalNames(frameworks) == ExternalNames(others) ==> frameworks == others
  {
    forall i | 0 <= i < |frameworks| ensures ParseName(ExternalNames(frameworks)[i]) == Some(frameworks[i]) {
      assert frameworks[i] in frameworks;
      ParseNameOfDotted(frameworks[i]);
    }
    if ExternalNames(frameworks) == ExternalNames(others) {
      assert |ExternalNames(frameworks)| == |frameworks| && |ExternalNames(others)| == |others|;
      forall i | 0 <= i < |frameworks| ensures frameworks[i] == others[i] {
        assert others[i] in others;
        ParseNameOfDotted(others[i]);
        assert ExternalNames(frameworks)[i] == ExternalNames(others)[i];
      }
    }
  }

  // ---- Kinds of MultiKueue frameworks ----

  datatype ApiResource = ApiResource(name: string, kind: string)

  // Discovery by "group/version"; a missing entry is a failed call.
  type Discovery = map<string, seq<ApiResource>>

  function GroupVersion(fw: Framework): string {
    fw.group + "/" + fw.version
  }

  function LookupKey(fw: Framework): string {
    fw.group + "/" + (fw.version + "/" + fw.resource)
  }

  lemma LookupKeyIsInjective(a: Framework, b: Framework)
    requires ValidFramework(a) && ValidFramework(b) && LookupKey(a) == LookupKey(b)
    ensures a == b
  {
    JoinIsInjective(a.group, a.version + "/" + a.resource, b.group, b.version + "/" + b.resource, '/');
    JoinIsInjective(a.version, a.resource, b.version, b.resource, '/');
  }

  /** The kind of the first API resource of that name in exactly that group and version. */
  function FirstKind(resources: seq<ApiResource>, name: string): Option<string> {
    if resources == [] then None
    else if resources[0].name == name then Some(resources[0].kind)
    else FirstKind(resources[1..], name)
  }

  function KindOf(d: Discovery, fw: Framework): Option<string> {
    if GroupVersion(fw) in d then FirstKind(d[GroupVersion(fw)], fw.resource) else None
  }

  method ResolveGVRsToKinds(d: Discovery, frameworks: seq<Framework>) returns (mapping: map<string, string>)
    requires forall fw :: fw in frameworks ==> ValidFramework(fw)
    ensures forall fw :: fw in frameworks ==>
              (LookupKey(fw) in mapping <==> KindOf(d, fw).Some?) &&
              (LookupKey(fw) in mapping ==> mapping[LookupKey(fw)] == KindOf(d, fw).value)
  {
    mapping := map[];
    for i := 0 to |frameworks|
      invariant forall fw :: fw in frameworks && LookupKey(fw) in mapping ==>
                  KindOf(d, fw) == Some(mapping[LookupKey(fw)])
      invariant forall fw :: fw in frameworks[..i] && KindOf(d, fw).Some? ==> LookupKey(fw) in mapping
    {
      var fw := frameworks[i];
      if GroupVersion(fw) in d {
        var resources := d[GroupVersion(fw)];
        var k := 0;
        while k < |resources| && resources[k].name != fw.resource
          invariant k <= |resources| && FirstKind(resources, fw.resource) == FirstKind(resources[k..], fw.resource)
        {
          k := k + 1;
        }
        if k < |resources| {
          forall other | other in frameworks && LookupKey(other) == LookupKey(fw) ensures other == fw {
            LookupKeyIsInjective(other, fw);
          }
          mapping := mapping[LookupKey(fw) := resources[k].kind];
        }
      }
    }
    assert frameworks[..|frameworks|] == frameworks;
  }

  /** The kind, on its own terms: that of the first resource of the name that discovery lists under
      "group/version"; none means that discovery failed or lists no such resource. */
  lemma KindOfIs(d: Discovery, fw: Framework)
    ensures KindOf(d, fw).None? <==>
      (fw.group + "/" + fw.version) !in d || forall r :: r in d[fw.group + "/" + fw.version] ==> r.name != fw.resource
    ensures KindOf(d, fw).Some? ==>
      var resources := d[fw.group + "/" + fw.version];
      exists i :: && 0 <= i < |resources|
                  && resources[i] == ApiResource(fw.resource, KindOf(d, fw).value)
                  && forall j :: 0 <= j < i ==> resources[j].name != fw.resource
  {
    if GroupVersion(fw) in d {
      FirstKindIsFirst(d[GroupVersion(fw)], fw.resource);
    }
  }

  /** Each rendered name uses the discovered kind, or the resource itself where there is none. */
  method BuildMultiKueueNames(d: Discovery, frameworks: seq<Framework>) returns (names: seq<string>)
    requires forall fw :: fw in frameworks ==> ValidFramework(fw)
    ensures |names| == |frameworks|
    ensures forall i :: 0 <= i < |frameworks| ==>
              var fw := frameworks[i];
              names[i] == (if KindOf(d, fw).Some? then KindOf(d, fw).value else fw.resource) + "." + fw.version + "." + fw.group
  {
    forall first, fw: Framework ensures DottedName(first, fw) == first + "." + fw.version + "." + fw.group {
      DottedNameIs(first, fw);
    }
    var mapping := ResolveGVRsToKinds(d, frameworks);
    names := [];
    for i := 0 to |frameworks|
      invariant |names| == i
      invariant forall j :: 0 <= j < i ==>
                  var fw := frameworks[j];
                  names[j] == DottedName(if KindOf(d, fw).Some? then KindOf(d, fw).value else fw.resource, fw)
    {
      var fw := frameworks[i];
      var kind := if LookupKey(fw) in mapping then mapping[LookupKey(fw)] else fw.resource;
      names := names + [DottedName(kind, fw)];
    }
  }

  /** FirstKind on its own terms: some resource of that name has this kind and none before it
      has the name; no result means no resource has it. */
  lemma {:induction false} FirstKindIsFirst(resources: seq<ApiResource>, name: string)
    ensures FirstKind(resources, name).None? <==> forall r :: r in resources ==> r.name != name
    ensures FirstKind(resources, name).Some? ==>
              exists i :: && 0 <= i < |resources|
                          && resources[i] == ApiResource(name, FirstKind(resources, name).value)
                          && forall j :: 0 <= j < i ==> resources[j].name != name
  {
    if resources != [] && resources[0].name != name {
      FirstKindIsFirst(resources[1..], name);
      if FirstKind(resources, name).Some? {
        var rest := resources[1..];
        var i :| && 0 <= i < |rest|
                 && rest[i] == ApiResource(name, FirstKind(rest, name).value)
                 && forall j :: 0 <= j < i ==> rest[j].name != name;
        assert resources[i + 1] == rest[i];
        assert forall j :: 0 < j < i + 1 ==> resources[j] == rest[j - 1];
      } else {
        assert resources == [resources[0]] + resources[1..];
      }
    }
  }
}
