/** The generated deep copy of KueueConfiguration. Embedded structs are values; pointers, and the backing
    stores of slices, are references that may be null. */
module DeepCopy {
  import opened Options

  newtype int32 = x: int | -0x8000_0000 <= x < 0x8000_0000

  /** A pointer to a value, or the backing store of a slice of it. */
  class Pointer<T> {
    var it: T

    constructor (it: T)
      ensures this.it == it
    {
      this.it := it;
    }
  }

  type Slice<T> = Pointer?<seq<T>>

  datatype ExternalFramework = ExternalFramework(group: string, resource: string, version: string)

  datatype Integrations = Integrations(
    frameworks: Slice<string>, externalFrameworks: Slice<ExternalFramework>, labelKeysToCopy: Slice<string>)

  datatype RequeuingStrategy = RequeuingStrategy(
    timeReference: string, retryLimit: int32, backoffBaseSeconds: int32, backoffMaxSeconds: int32)

  datatype DeviceSelector = DeviceSelector(selectorType: string, celExpression: string)

  datatype SourceBody = SourceBody(name: string, driver: string, selector: DeviceSelector)

  datatype SourceConfig = SourceConfig(sourceType: string, counter: SourceBody, capacity: SourceBody)

  datatype DeviceClassMapping = DeviceClassMapping(
    name: string, deviceClassNames: Slice<string>, sources: Slice<SourceConfig>)

  datatype Resources = Resources(deviceClassMappings: Slice<DeviceClassMapping>)

  datatype GangScheduling = GangScheduling(policy: string, byWorkload: Pointer?<ByWorkload>)

  datatype ResourceWeight = ResourceWeight(name: string, weight: string)

  datatype FairSharingCustom = FairSharingCustom(
    usageHalfLifeTimeSeconds: int32, usageSamplingIntervalSeconds: int32, resourceWeights: Slice<ResourceWeight>)

  datatype AdmissionFairSharing = AdmissionFairSharing(configuration: string, custom: FairSharingCustom)

  datatype CustomLabel = CustomLabel(
    name: string, sourceType: string, labelKey: string, annotationKey: string, sourceKind: string)

  datatype ControllerManager = ControllerManager(customLabels: Slice<CustomLabel>)

  datatype ByWorkload = ByWorkload(
    admission: string, timeoutSeconds: int32, recoveryTimeoutSeconds: Pointer?<int32>, requeuing: RequeuingStrategy)

  datatype MultiKueue = MultiKueue(externalFrameworks: Slice<ExternalFramework>)

  datatype KueueConfiguration = KueueConfiguration(
    integrations: Integrations,
    labelPolicy: string,
    gangScheduling: GangScheduling,
    preemptionPolicy: string,
    resources: Resources,
    multiKueue: Pointer?<MultiKueue>,
    admissionFairSharing: AdmissionFairSharing,
    controllerManager: ControllerManager)

  // ---- Pointers and slices ----

  ghost function PointerFootprint<T>(p: Pointer?<T>): set<object> {
    if p == null then {} else {p}
  }

  /** What is behind a pointer; None for nil, which as a slice is not the empty slice. */
  ghost function Target<T>(p: Pointer?<T>): Option<T>
    reads PointerFootprint(p)
  {
    if p == null then None else Some(p.it)
  }

  /** A copy of what is behind the pointer, when that holds no pointer of its own. */
  method CopyTarget<T>(p: Pointer?<T>) returns (out: Pointer?<T>)
    ensures fresh(PointerFootprint(out)) && Target(out) == Target(p)
  {
    out := null;
    if p != null {
      out := new Pointer(p.it);
    }
  }

  // ---- Resources: a slice of structs that hold slices ----

  datatype MappingValue = MappingValue(
    name: string, deviceClassNames: Option<seq<string>>, sources: Option<seq<SourceConfig>>)

  ghost function MappingFootprint(m: DeviceClassMapping): set<object> {
    PointerFootprint(m.deviceClassNames) + PointerFootprint(m.sources)
  }

  ghost function ValueOfMapping(m: DeviceClassMapping): MappingValue
    reads MappingFootprint(m)
  {
    MappingValue(m.name, Target(m.deviceClassNames), Target(m.sources))
  }

  method CopyMapping(m: DeviceClassMapping) returns (out: DeviceClassMapping)
    ensures fresh(MappingFootprint(out)) && ValueOfMapping(out) == ValueOfMapping(m)
  {
    out := m;
    var names := CopyTarget(m.deviceClassNames);
    out := out.(deviceClassNames := names);
    var sources := CopyTarget(m.sources);
    out := out.(sources := sources);
  }

  ghost function MappingsFootprint(ms: seq<DeviceClassMapping>): set<object> {
    set m, o | m in ms && o in MappingFootprint(m) :: o
  }

  ghost function ResourcesFootprint(r: Resources): set<object>
    reads PointerFootprint(r.deviceClassMappings)
  {
    if r.deviceClassMappings == null then {}
    else {r.deviceClassMappings} + MappingsFootprint(r.deviceClassMappings.it)
  }

  ghost function ValueOfMappings(ms: seq<DeviceClassMapping>): seq<MappingValue>
    reads MappingsFootprint(ms)
  {
    seq(|ms|, i requires 0 <= i < |ms| reads MappingsFootprint(ms) => ValueOfMapping(ms[i]))
  }

  ghost function ValueOfResources(r: Resources): Option<seq<MappingValue>>
    reads ResourcesFootprint(r)
  {
    if r.deviceClassMappings == null then None else Some(ValueOfMappings(r.deviceClassMappings.it))
  }

  method CopyResources(r: Resources) returns (out: Resources)
    ensures fresh(ResourcesFootprint(out)) && ValueOfResources(out) == ValueOfResources(r)
  {
    var a := r.deviceClassMappings;
    if a == null {
      return r;
    }
    var b := new Pointer(seq(|a.it|, _ => DeviceClassMapping("", null, null)));
    for i := 0 to |a.it|
      invariant fresh(b) && |b.it| == |a.it|
      invariant forall k :: 0 <= k < i ==> fresh(MappingFootprint(b.it[k])) && ValueOfMapping(b.it[k]) == ValueOfMapping(a.it[k])
    {
      var m := CopyMapping(a.it[i]);
      b.it := b.it[i := m];
    }
    out := Resources(b);
    assert ValueOfMappings(b.it) == ValueOfMappings(a.it);
  }

  // ---- Structs behind pointers ----

  datatype ByWorkloadValue = ByWorkloadValue(
    admission: string, timeoutSeconds: int32, recoveryTimeoutSeconds: Option<int32>, requeuing: RequeuingStrategy)

  ghost function ValueOfByWorkload(w: ByWorkload): ByWorkloadValue
    reads PointerFootprint(w.recoveryTimeoutSeconds)
  {
    var p := w.recoveryTimeoutSeconds;
    ByWorkloadValue(w.admission, w.timeoutSeconds, Target(p), w.requeuing)
  }

  method CopyByWorkload(w: ByWorkload) returns (out: ByWorkload)
    ensures fresh(PointerFootprint(out.recoveryTimeoutSeconds)) && ValueOfByWorkload(out) == ValueOfByWorkload(w)
  {
    var p := CopyTarget(w.recoveryTimeoutSeconds);
    out := w.(recoveryTimeoutSeconds := p);
  }

  ghost function GangFootprint(g: GangScheduling): set<object>
    reads PointerFootprint(g.byWorkload)
  {
    if g.byWorkload == null then {}
    else {g.byWorkload} + PointerFootprint(g.byWorkload.it.recoveryTimeoutSeconds)
  }

  ghost function ValueOfGang(g: GangScheduling): (string, Option<ByWorkloadValue>)
    reads GangFootprint(g)
  {
    (g.policy, if g.byWorkload == null then None else Some(ValueOfByWorkload(g.byWorkload.it)))
  }

  method CopyGang(g: GangScheduling) returns (out: GangScheduling)
    ensures fresh(GangFootprint(out)) && ValueOfGang(out) == ValueOfGang(g)
  {
    out := g;
    if g.byWorkload != null {
      var w := CopyByWorkload(g.byWorkload.it);
      var p := new Pointer(w);
      out := out.(byWorkload := p);
    }
  }

  ghost function MultiKueueFootprint(p: Pointer?<MultiKueue>): set<object>
    reads PointerFootprint(p)
  {
    if p == null then {} else {p} + PointerFootprint(p.it.externalFrameworks)
  }

  ghost function ValueOfMultiKueue(p: Pointer?<MultiKueue>): Option<Option<seq<ExternalFramework>>>
    reads MultiKueueFootprint(p)
  {
    if p == null then None else Some(Target(p.it.externalFrameworks))
  }

  method CopyMultiKueue(p: Pointer?<MultiKueue>) returns (out: Pointer?<MultiKueue>)
    ensures fresh(MultiKueueFootprint(out)) && ValueOfMultiKueue(out) == ValueOfMultiKueue(p)
  {
    out := null;
    if p != null {
      var frameworks := CopyTarget(p.it.externalFrameworks);
      out := new Pointer(MultiKueue(frameworks));
    }
  }

  // ---- The configuration ----

  datatype IntegrationsValue = IntegrationsValue(
    frameworks: Option<seq<string>>, externalFrameworks: Option<seq<ExternalFramework>>, labelKeys: Option<seq<string>>)

  ghost function IntegrationsFootprint(i: Integrations): set<object> {
    PointerFootprint(i.frameworks) + PointerFootprint(i.externalFrameworks) + PointerFootprint(i.labelKeysToCopy)
  }

  ghost function ValueOfIntegrations(i: Integrations): IntegrationsValue
    reads IntegrationsFootprint(i)
  {
    IntegrationsValue(Target(i.frameworks), Target(i.externalFrameworks), Target(i.labelKeysToCopy))
  }

  method CopyIntegrations(i: Integrations) returns (out: Integrations)
    ensures fresh(IntegrationsFootprint(out)) && ValueOfIntegrations(out) == ValueOfIntegrations(i)
  {
    var frameworks := CopyTarget(i.frameworks);
    var external := CopyTarget(i.externalFrameworks);
    var keys := CopyTarget(i.labelKeysToCopy);
    out := i.(frameworks := frameworks, externalFrameworks := external, labelKeysToCopy := keys);
  }

  // ---- The configuration, in two halves ----

  datatype ConfigurationValue = ConfigurationValue(
    integrations: IntegrationsValue,
    labelPolicy: string,
    gangScheduling: (string, Option<ByWorkloadValue>),
    preemptionPolicy: string,
    deviceClassMappings: Option<seq<MappingValue>>,
    multiKueue: Option<Option<seq<ExternalFramework>>>,
    fairSharing: (string, int32, int32, Option<seq<ResourceWeight>>),
    customLabels: Option<seq<CustomLabel>>)

  ghost function FlatFootprint(c: KueueConfiguration): set<object> {
    IntegrationsFootprint(c.integrations)
    + PointerFootprint(c.admissionFairSharing.custom.resourceWeights) + PointerFootprint(c.controllerManager.customLabels)
  }

  /** What the footprint is read through. */
  ghost function Spine(c: KueueConfiguration): set<object> {
    PointerFootprint(c.gangScheduling.byWorkload) + PointerFootprint(c.resources.deviceClassMappings)
    + PointerFootprint(c.multiKueue)
  }

  ghost function NestedFootprint(c: KueueConfiguration): set<object>
    reads Spine(c)
  {
    GangFootprint(c.gangScheduling) + ResourcesFootprint(c.resources) + MultiKueueFootprint(c.multiKueue)
  }

  /** Everything reachable from the configuration. */
  ghost function Footprint(c: KueueConfiguration): set<object>
    reads Spine(c)
  {
    FlatFootprint(c) + NestedFootprint(c)
  }

  ghost function Value(c: KueueConfiguration): ConfigurationValue
    reads Footprint(c)
  {
    var custom := c.admissionFairSharing.custom;
    ConfigurationValue(
      ValueOfIntegrations(c.integrations), c.labelPolicy, ValueOfGang(c.gangScheduling), c.preemptionPolicy,
      ValueOfResources(c.resources), ValueOfMultiKueue(c.multiKueue),
      (c.admissionFairSharing.configuration, custom.usageHalfLifeTimeSeconds, custom.usageSamplingIntervalSeconds,
       Target(custom.resourceWeights)),
      Target(c.controllerManager.customLabels))
  }

  /** Only the slices held directly by the configuration may differ. */
  ghost predicate SameButFlat(c: KueueConfiguration, d: KueueConfiguration) {
    && d == c.(integrations := d.integrations, admissionFairSharing := d.admissionFairSharing,
               controllerManager := d.controllerManager)
    && d.admissionFairSharing == c.admissionFairSharing.(custom := c.admissionFairSharing.custom.(
         resourceWeights := d.admissionFairSharing.custom.resourceWeights))
  }

  /** Only the parts that hold references to further references may differ. */
  ghost predicate SameButNested(c: KueueConfiguration, d: KueueConfiguration) {
    d == c.(gangScheduling := d.gangScheduling, resources := d.resources, multiKueue := d.multiKueue)
  }

  ghost function ValueOfFlat(c: KueueConfiguration)
    : (IntegrationsValue, Option<seq<ResourceWeight>>, Option<seq<CustomLabel>>)
    reads FlatFootprint(c)
  {
    (ValueOfIntegrations(c.integrations), Target(c.admissionFairSharing.custom.resourceWeights),
     Target(c.controllerManager.customLabels))
  }

  ghost function ValueOfNested(c: KueueConfiguration)
    : ((string, Option<ByWorkloadValue>), Option<seq<MappingValue>>, Option<Option<seq<ExternalFramework>>>)
    reads NestedFootprint(c)
  {
    (ValueOfGang(c.gangScheduling), ValueOfResources(c.resources), ValueOfMultiKueue(c.multiKueue))
  }

  lemma FlatIsAllocated(c: KueueConfiguration)
    ensures forall o :: o in FlatFootprint(c) ==> allocated(o)
  {
    hide Target;
  }

  lemma GangIsAllocated(g: GangScheduling)
    ensures forall o :: o in PointerFootprint(g.byWorkload) ==> allocated(o)
    ensures forall o :: o in GangFootprint(g) ==> allocated(o)
  {
  }

  lemma MultiKueueIsAllocated(p: Pointer?<MultiKueue>)
    ensures forall o :: o in PointerFootprint(p) ==> allocated(o)
    ensures forall o :: o in MultiKueueFootprint(p) ==> allocated(o)
  {
  }

  lemma ResourcesAreAllocated(r: Resources)
    ensures forall o :: o in PointerFootprint(r.deviceClassMappings) ==> allocated(o)
    ensures forall o :: o in ResourcesFootprint(r) ==> allocated(o)
  {
  }

  lemma FootprintIsAllocated(c: KueueConfiguration)
    ensures forall o :: o in Footprint(c) ==> allocated(o)
  {
    hide FlatFootprint, GangFootprint, ResourcesFootprint, MultiKueueFootprint;
    GangIsAllocated(c.gangScheduling);
    ResourcesAreAllocated(c.resources);
    MultiKueueIsAllocated(c.multiKueue);
    FlatIsAllocated(c);
  }

  method CopyFlat(c: KueueConfiguration) returns (out: KueueConfiguration)
    ensures SameButFlat(c, out)
    ensures fresh(FlatFootprint(out)) && ValueOfFlat(out) == ValueOfFlat(c)
  {
    var i := CopyIntegrations(c.integrations);
    var weights := CopyTarget(c.admissionFairSharing.custom.resourceWeights);
    var labels := CopyTarget(c.controllerManager.customLabels);
    var custom := c.admissionFairSharing.custom.(resourceWeights := weights);
    out := c.(integrations := i, admissionFairSharing := c.admissionFairSharing.(custom := custom),
              controllerManager := ControllerManager(labels));
  }

  method CopyNested(c: KueueConfiguration) returns (out: KueueConfiguration)
    ensures SameButNested(c, out)
    ensures fresh(NestedFootprint(out)) && ValueOfNested(out) == ValueOfNested(c)
  {
    hide GangFootprint, ResourcesFootprint, MultiKueueFootprint, ValueOfGang, ValueOfResources, ValueOfMultiKueue;
    GangIsAllocated(c.gangScheduling);
    ResourcesAreAllocated(c.resources);
    MultiKueueIsAllocated(c.multiKueue);
    var g := CopyGang(c.gangScheduling);
    GangIsAllocated(g);
    var r := CopyResources(c.resources);
    ResourcesAreAllocated(r);
    var m := CopyMultiKueue(c.multiKueue);
    out := c.(gangScheduling := g, resources := r, multiKueue := m);
  }

  lemma ValueHasTwoHalves(c: KueueConfiguration, flat: KueueConfiguration, out: KueueConfiguration)
    requires SameButFlat(c, flat)
    requires SameButNested(flat, out)
    requires ValueOfFlat(flat) == ValueOfFlat(c)
    requires ValueOfNested(out) == ValueOfNested(flat)
    ensures Value(out) == Value(c) && Footprint(out) == FlatFootprint(flat) + NestedFootprint(out)
  {
    hide ValueOfMultiKueue, ValueOfGang, ValueOfResources, ValueOfIntegrations, Target;
    hide MultiKueueFootprint, GangFootprint, ResourcesFootprint;
  }

  method CopyConfiguration(c: KueueConfiguration) returns (out: KueueConfiguration)
    ensures fresh(Footprint(out)) && Value(out) == Value(c)
  {
    hide *;
    FlatIsAllocated(c);
    var flat := CopyFlat(c);
    FlatIsAllocated(flat);
    out := CopyNested(flat);
    ValueHasTwoHalves(c, flat, out);
  }

  lemma SpineIsReachable(c: KueueConfiguration)
    ensures Spine(c) <= Footprint(c)
  {
  }

  /** The copy has the same value and shares nothing with the original; nil is copied to nil. */
  method DeepCopy(config: Pointer?<KueueConfiguration>) returns (out: Pointer?<KueueConfiguration>)
    ensures out == null <==> config == null
    ensures out != null ==> fresh(out) && fresh(Footprint(out.it)) && Value(out.it) == Value(config.it)
  {
    hide *;
    out := null;
    if config != null {
      FootprintIsAllocated(config.it);
      SpineIsReachable(config.it);
      out := new Pointer(config.it);
      assert out !in Footprint(config.it);
      SpineIsReachable(config.it);
      FootprintIsAllocated(config.it);
      var c := CopyConfiguration(config.it);
      SpineIsReachable(c);
      SpineIsReachable(config.it);
      assert out !in Footprint(c);
      assert out !in Footprint(config.it);
      out.it := c;
    }
  }

  /** Whatever is later written through the copy, the original keeps its value; and whatever is written
      through the original, the copy keeps the value it was given. */
  method WritesAreNotShared(config: Pointer<KueueConfiguration>, throughCopy: bool)
    returns (out: Pointer<KueueConfiguration>)
    modifies config, Footprint(config.it)
    ensures fresh(out)
    ensures throughCopy ==> Value(config.it) == old(Value(config.it))
    ensures !throughCopy ==> Value(out.it) == old(Value(config.it))
  {
    hide *;
    ghost var mine := Footprint(config.it);
    FootprintIsAllocated(config.it);
    SpineIsReachable(config.it);
    out := DeepCopy(config);
    SpineIsReachable(out.it);
    assert config !in Footprint(out.it) && out !in mine && mine !! Footprint(out.it);
    if throughCopy {
      modify out, Footprint(out.it);
    } else {
      FootprintIsAllocated(out.it);
      modify config, mine;
    }
  }

  // ---- What equal values mean ----

  /** Both nil, or both pointing to equal things. */
  ghost predicate SameTarget<T>(p: Pointer?<T>, q: Pointer?<T>)
    reads PointerFootprint(p), PointerFootprint(q)
  {
    (p == null <==> q == null) && (p != null && q != null ==> p.it == q.it)
  }

  /** Configurations of equal value agree field by field, at every depth, and nil is told from empty. */
  lemma EqualValuesAgree(c: KueueConfiguration, d: KueueConfiguration)
    requires Value(c) == Value(d)
    ensures SameTarget(c.integrations.frameworks, d.integrations.frameworks)
    ensures SameTarget(c.integrations.externalFrameworks, d.integrations.externalFrameworks)
    ensures SameTarget(c.integrations.labelKeysToCopy, d.integrations.labelKeysToCopy)
    ensures c.labelPolicy == d.labelPolicy && c.preemptionPolicy == d.preemptionPolicy
    ensures var g, h := c.gangScheduling, d.gangScheduling;
      && g.policy == h.policy && (g.byWorkload == null <==> h.byWorkload == null)
      && (g.byWorkload != null && h.byWorkload != null ==>
            var v, w := g.byWorkload.it, h.byWorkload.it;
            && v.(recoveryTimeoutSeconds := null) == w.(recoveryTimeoutSeconds := null)
            && SameTarget(v.recoveryTimeoutSeconds, w.recoveryTimeoutSeconds))
    ensures var p, q := c.resources.deviceClassMappings, d.resources.deviceClassMappings;
      && (p == null <==> q == null)
      && (p != null && q != null ==>
            && |p.it| == |q.it|
            && forall i :: 0 <= i < |p.it| ==>
                 && p.it[i].name == q.it[i].name
                 && SameTarget(p.it[i].deviceClassNames, q.it[i].deviceClassNames)
                 && SameTarget(p.it[i].sources, q.it[i].sources))
    ensures var p, q := c.multiKueue, d.multiKueue;
      && (p == null <==> q == null)
      && (p != null && q != null ==> SameTarget(p.it.externalFrameworks, q.it.externalFrameworks))
    ensures var a, b := c.admissionFairSharing, d.admissionFairSharing;
      && a.configuration == b.configuration
      && a.custom.(resourceWeights := null) == b.custom.(resourceWeights := null)
      && SameTarget(a.custom.resourceWeights, b.custom.resourceWeights)
    ensures SameTarget(c.controllerManager.customLabels, d.controllerManager.customLabels)
  {
    EqualMappingsAgree(c.resources, d.resources);
  }

  lemma EqualMappingsAgree(r: Resources, o: Resources)
    requires ValueOfResources(r) == ValueOfResources(o)
    ensures var p, q := r.deviceClassMappings, o.deviceClassMappings;
      && (p == null <==> q == null)
      && (p != null && q != null ==>
            && |p.it| == |q.it|
            && forall i :: 0 <= i < |p.it| ==>
                 && p.it[i].name == q.it[i].name
                 && SameTarget(p.it[i].deviceClassNames, q.it[i].deviceClassNames)
                 && SameTarget(p.it[i].sources, q.it[i].sources))
  {
    var p, q := r.deviceClassMappings, o.deviceClassMappings;
    if p != null && q != null {
      assert |ValueOfMappings(p.it)| == |p.it| && |ValueOfMappings(q.it)| == |q.it|;
      forall i | 0 <= i < |p.it| ensures ValueOfMapping(p.it[i]) == ValueOfMapping(q.it[i]) {
        assert ValueOfMappings(p.it)[i] == ValueOfMappings(q.it)[i];
      }
    }
  }
}
