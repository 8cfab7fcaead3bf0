/** The two DRA feature flags the reconciler remembers from one sync to the next. */
module DraGates {

  const PARTITIONABLE_GATE := "DRAPartitionableDevices"
  const CONSUMABLE_GATE := "DRAConsumableCapacity"

  // The cluster's FeatureGate object; `enabled` matters only under CustomNoUpgrade.
  datatype FeatureGate = Unreadable | FeatureGate(customNoUpgrade: bool, enabled: seq<string>)

  /** What one sync sees. A sync that returned before the gate check reached nothing. */
  datatype View =
    | NotReached
    | View(draAPIs: bool, minor: int, gates: FeatureGate)

  predicate Lists(g: FeatureGate, gate: string) {
    g.FeatureGate? && g.customNoUpgrade && gate in g.enabled
  }

  /** Kubernetes 1.36 enables consumable capacity by default. */
  predicate VersionEnables(v: View) {
    v.View? && v.draAPIs && v.minor >= 36
  }

  /** The sync read the FeatureGate object. */
  predicate ReadsGates(isOpenShift: bool, v: View) {
    v.View? && isOpenShift && v.draAPIs && v.gates.FeatureGate?
  }

  datatype Flags = Flags(partitionable: bool, consumable: bool)

  class Reconciler {
    const isOpenShift: bool
    var partitionable: bool
    var consumable: bool

    constructor (isOpenShift: bool)
      ensures this.isOpenShift == isOpenShift && Memory() == Flags(false, false)
    {
      this.isOpenShift := isOpenShift;
      partitionable, consumable := false, false;
    }

    function Memory(): Flags
      reads this
    {
      Flags(partitionable, consumable)
    }

    method CheckGates(v: View)
      requires v.View?
      modifies this`partitionable, this`consumable
      ensures Memory() == Remembered(isOpenShift, old(Memory()), v)
      ensures var read := isOpenShift && v.draAPIs && v.gates.FeatureGate?;
        && (read ==> (partitionable <==> v.gates.customNoUpgrade && "DRAPartitionableDevices" in v.gates.enabled))
        && (!read ==> partitionable == old(partitionable))
        && (consumable <==>
              || (v.draAPIs && v.minor >= 36)
              || (read && v.gates.customNoUpgrade && "DRAConsumableCapacity" in v.gates.enabled)
              || (isOpenShift && v.draAPIs && v.gates.Unreadable? && old(consumable)))
    {
      var versionEnables := v.draAPIs && v.minor >= 36;
      var previous := consumable;
      consumable := versionEnables;
      if isOpenShift && v.draAPIs {
        match v.gates
        case Unreadable =>
          if !versionEnables {
            consumable := previous;
          }
        case FeatureGate(custom, enabled) =>
          partitionable := false;
          consumable := versionEnables;
          if custom {
            for i := 0 to |enabled|
              invariant partitionable <==> PARTITIONABLE_GATE in enabled[..i]
              invariant consumable <==> versionEnables || CONSUMABLE_GATE in enabled[..i]
            {
              if enabled[i] == PARTITIONABLE_GATE {
                partitionable := true;
              } else if enabled[i] == CONSUMABLE_GATE {
                consumable := true;
              }
            }
            assert enabled[..|enabled|] == enabled;
          }
      }
    }
  }

  /** The flags after one more sync. */
  function Remembered(isOpenShift: bool, m: Flags, v: View): Flags {
    if v.NotReached? then m
    else Flags(
      if ReadsGates(isOpenShift, v) then Lists(v.gates, PARTITIONABLE_GATE) else m.partitionable,
      || VersionEnables(v)
      || (ReadsGates(isOpenShift, v) && Lists(v.gates, CONSUMABLE_GATE))
      || (isOpenShift && v.draAPIs && v.gates.Unreadable? && m.consumable))
  }

  function After(isOpenShift: bool, history: seq<View>): Flags {
    if history == [] then Flags(false, false)
    else Remembered(isOpenShift, After(isOpenShift, history[..|history| - 1]), history[|history| - 1])
  }

  /** The flag for partitionable devices is the verdict of the latest successful read of the
      FeatureGate object, and false while there was none. */
  lemma {:induction false} PartitionableIsLatestVerdict(isOpenShift: bool, history: seq<View>)
    ensures After(isOpenShift, history).partitionable <==>
            exists i :: && 0 <= i < |history|
                        && ReadsGates(isOpenShift, history[i])
                        && Lists(history[i].gates, PARTITIONABLE_GATE)
                        && forall j :: i < j < |history| ==> !ReadsGates(isOpenShift, history[j])
  {
    if history != [] {
      var n := |history| - 1;
      var shorter := history[..n];
      PartitionableIsLatestVerdict(isOpenShift, shorter);
      assert forall i :: 0 <= i < n ==> history[i] == shorter[i];
      if After(isOpenShift, history).partitionable {
        if ReadsGates(isOpenShift, history[n]) {
          assert Lists(history[n].gates, PARTITIONABLE_GATE);
        } else {
          var i :| && 0 <= i < n
                   && ReadsGates(isOpenShift, shorter[i])
                   && Lists(shorter[i].gates, PARTITIONABLE_GATE)
                   && forall j :: i < j < n ==> !ReadsGates(isOpenShift, shorter[j]);
          assert history[i] == shorter[i];
        }
      }
    }
  }

  /** Direct evidence for consumable capacity: the server's version, or a listed gate. */
  predicate Evidence(isOpenShift: bool, v: View) {
    VersionEnables(v) || (ReadsGates(isOpenShift, v) && Lists(v.gates, CONSUMABLE_GATE))
  }

  /** The sync could not tell: it did not get to the check, or the read failed on an OpenShift
      cluster that serves the DRA APIs. */
  predicate Undecided(isOpenShift: bool, v: View) {
    v.NotReached? || (isOpenShift && v.draAPIs && v.gates.Unreadable?)
  }

  /** The flag for consumable capacity is on exactly when some sync had direct evidence and
      every sync since then was undecided. */
  lemma {:induction false} ConsumableIffEvidence(isOpenShift: bool, history: seq<View>)
    ensures After(isOpenShift, history).consumable <==>
            exists i :: && 0 <= i < |history|
                        && Evidence(isOpenShift, history[i])
                        && forall j :: i < j < |history| ==> Undecided(isOpenShift, history[j])
  {
    if history != [] {
      var n := |history| - 1;
      var shorter := history[..n];
      ConsumableIffEvidence(isOpenShift, shorter);
      assert forall i :: 0 <= i < n ==> history[i] == shorter[i];
      if After(isOpenShift, history).consumable && !Evidence(isOpenShift, history[n]) {
        var i :| && 0 <= i < n
                 && Evidence(isOpenShift, shorter[i])
                 && forall j :: i < j < n ==> Undecided(isOpenShift, shorter[j]);
        assert history[i] == shorter[i];
      }
    }
  }
}
