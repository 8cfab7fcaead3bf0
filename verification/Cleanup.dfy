/** The five cleanup steps that run before the finalizer is removed, as loops over a cluster. */
module Cleanup {
  import opened ClusterObjects
  import opened Strings

  /** Which API calls fail for good, after the retries on throttling and conflicts. */
  datatype Faults = Faults(listing: set<nat>, deleting: set<ObjKey>)

  datatype Error = ListFailed(group: nat) | DeleteFailed(key: ObjKey)

  /** What is left once group g was visited. */
  function Cleared(objs: map<ObjKey, Owner>, g: nat, f: Faults): map<ObjKey, Owner> {
    map k | k in objs && !(InGroup(g, k) && (g >= 6 || g !in f.listing) && k !in f.deleting) :: objs[k]
  }

  function ClearedUpTo(objs: map<ObjKey, Owner>, lo: nat, hi: nat, f: Faults): map<ObjKey, Owner>
    requires lo <= hi
  {
    if lo == hi then objs else Cleared(ClearedUpTo(objs, lo, hi - 1, f), hi - 1, f)
  }

  /** Visiting the group reports an error. A named object that is missing is one: its delete
      answers NotFound. */
  predicate GroupFails(objs: map<ObjKey, Owner>, g: nat, f: Faults) {
    if 6 <= g < GROUPS then NamedTarget(g) !in objs || NamedTarget(g) in f.deleting
    else g in f.listing || exists k :: k in objs && InGroup(g, k) && k in f.deleting
  }

  /** What the groups of webhooks, cluster roles and bindings have in common with the names they select. */
  lemma FiltersByName()
    ensures forall k :: InGroup(0, k) || InGroup(1, k) ==>
      (k.kind == MutatingWebhook || k.kind == ValidatingWebhook) && Has(k.name, "kueue")
    ensures forall k :: InGroup(4, k) ==>
      && k.kind == ClusterRole && Has(k.name, "kueue")
      && !Has(k.name, "kueue-operator") && !Has(k.name, "openshift.io")
      && k.name != "kueue-batch-user-role" && k.name != "kueue-batch-admin-role"
    ensures forall k :: InGroup(5, k) ==>
      k.kind == ClusterRoleBinding && Has(k.name, "kueue") && !Has(k.name, "kueue-operator")
  {
    hide Has, Contains;
    forall name, text ensures Contains(name, text) <==> Has(name, text) {
      ContainsIff(name, text);
    }
  }

  class Cluster {
    var objects: map<ObjKey, Owner>

    constructor (objs: map<ObjKey, Owner>)
      ensures objects == objs
    {
      objects := objs;
    }

    method Delete(k: ObjKey, f: Faults) returns (ok: bool)
      modifies this
      ensures ok <==> k in old(objects) && k !in f.deleting
      ensures objects == if ok then old(objects) - {k} else old(objects)
    {
      ok := k in objects && k !in f.deleting;
      if ok {
        objects := objects - {k};
      }
    }

    /** One listing with its name filter, and a delete of each name it returned. */
    method CleanUpGroup(g: nat, f: Faults) returns (errorList: seq<Error>)
      requires g < 6
      modifies this
      ensures objects == Cleared(old(objects), g, f)
      ensures errorList != [] <==> GroupFails(old(objects), g, f)
    {
      errorList := [];
      if g in f.listing {
        assert Cleared(objects, g, f) == objects;
        errorList := [ListFailed(g)];
        return;
      }
      var todo := set k | k in objects && InGroup(g, k);
      var before := objects;
      while todo != {}
        invariant forall k :: k in todo ==> k in before && InGroup(g, k)
        invariant objects == map k | k in before && (k in todo || !InGroup(g, k) || k in f.deleting) :: before[k]
        invariant errorList != [] <==> exists k :: k in before && InGroup(g, k) && k in f.deleting && k !in todo
        decreases todo
      {
        var k :| k in todo;
        var ok := Delete(k, f);
        todo := todo - {k};
        if !ok {
          errorList := errorList + [DeleteFailed(k)];
        }
      }
    }

    method CleanUpWebhooks(f: Faults) returns (errorList: seq<Error>)
      modifies this
      ensures objects == ClearedUpTo(old(objects), 0, 2, f)
      ensures errorList != [] <==> StepFails(old(objects), 0, 2, f)
      ensures forall k :: k in old(objects) && k !in objects ==>
        (k.kind == MutatingWebhook || k.kind == ValidatingWebhook) && Has(k.name, "kueue")
    {
      FiltersByName();
      errorList := [];
      for g := 0 to 2
        invariant objects == ClearedUpTo(old(objects), 0, g, f)
        invariant errorList != [] <==> StepFails(old(objects), 0, g, f)
      {
        var errs := CleanUpGroup(g, f);
        errorList := errorList + errs;
      }
    }

    method CleanUpCertificatesAndIssuers(f: Faults) returns (errorList: seq<Error>)
      modifies this
      ensures objects == ClearedUpTo(old(objects), 2, 4, f)
      ensures errorList != [] <==> StepFails(old(objects), 2, 4, f)
    {
      errorList := [];
      for g := 2 to 4
        invariant objects == ClearedUpTo(old(objects), 2, g, f)
        invariant errorList != [] <==> StepFails(old(objects), 2, g, f)
      {
        var errs := CleanUpGroup(g, f);
        errorList := errorList + errs;
      }
    }

    method CleanUpClusterRoles(f: Faults) returns (errorList: seq<Error>)
      modifies this
      ensures objects == ClearedUpTo(old(objects), 4, 5, f)
      ensures errorList != [] <==> StepFails(old(objects), 4, 5, f)
      ensures forall k :: k in old(objects) && k !in objects ==>
        && k.kind == ClusterRole && Has(k.name, "kueue")
        && !Has(k.name, "kueue-operator") && !Has(k.name, "openshift.io")
        && k.name != "kueue-batch-user-role" && k.name != "kueue-batch-admin-role"
    {
      FiltersByName();
      errorList := CleanUpGroup(4, f);
    }

    method CleanUpClusterRoleBindings(f: Faults) returns (errorList: seq<Error>)
      modifies this
      ensures objects == ClearedUpTo(old(objects), 5, 6, f)
      ensures errorList != [] <==> StepFails(old(objects), 5, 6, f)
      ensures forall k :: k in old(objects) && k !in objects ==>
        k.kind == ClusterRoleBinding && Has(k.name, "kueue") && !Has(k.name, "kueue-operator")
    {
      FiltersByName();
      errorList := CleanUpGroup(5, f);
    }

    method CleanUpResources(f: Faults) returns (errorList: seq<Error>)
      modifies this
      ensures objects == ClearedUpTo(old(objects), 6, 9, f)
      ensures errorList != [] <==> StepFails(old(objects), 6, 9, f)
    {
      errorList := [];
      for g := 6 to GROUPS
        invariant objects == ClearedUpTo(old(objects), 6, g, f)
        invariant errorList != [] <==> StepFails(old(objects), 6, g, f)
      {
        var k := NamedTarget(g);
        var before := objects;
        var ok := Delete(k, f);
        assert objects == Cleared(before, g, f);
        if !ok {
          errorList := errorList + [DeleteFailed(k)];
        }
      }
    }

    /** The five steps in order; the first one that reports an error ends the sync, after all of its groups. */
    method CleanUp(f: Faults) returns (ok: bool, stepsDone: nat)
      modifies this
      ensures stepsDone == StepsDone(old(objects), f)
      ensures ok <==> stepsDone == 5
      ensures ok <==> !StepFails(old(objects), 0, GROUPS, f)
      ensures objects == ClearedUpTo(old(objects), 0, LastGroup(stepsDone), f)
    {
      ok, stepsDone := false, 0;
      ghost var start := objects;
      AllStepsDoneIff(start, f);
      var errorList := CleanUpWebhooks(f);
      if errorList != [] { return; }
      stepsDone := 1;
      errorList := CleanUpCertificatesAndIssuers(f);
      StepsCompose(start, 0, 2, 4, f);
      if errorList != [] { return; }
      stepsDone := 2;
      errorList := CleanUpClusterRoles(f);
      StepsCompose(start, 0, 4, 5, f);
      if errorList != [] { return; }
      stepsDone := 3;
      errorList := CleanUpClusterRoleBindings(f);
      StepsCompose(start, 0, 5, 6, f);
      if errorList != [] { return; }
      stepsDone := 4;
      errorList := CleanUpResources(f);
      StepsCompose(start, 0, 6, GROUPS, f);
      if errorList != [] { return; }
      ok, stepsDone := true, 5;
    }
  }

  /** How many steps return nil before the first one that does not. */
  function StepsDone(objs: map<ObjKey, Owner>, f: Faults): nat {
    if StepFails(objs, 0, 2, f) then 0
    else if StepFails(objs, 0, 4, f) then 1
    else if StepFails(objs, 0, 5, f) then 2
    else if StepFails(objs, 0, 6, f) then 3
    else if StepFails(objs, 0, GROUPS, f) then 4
    else 5
  }

  /** The groups visited when so many steps are done: those of the step that failed included. */
  function LastGroup(stepsDone: nat): nat {
    match stepsDone
    case 0 => 2
    case 1 => 4
    case 2 => 5
    case 3 => 6
    case _ => GROUPS
  }

  /** Some group in lo..hi reports an error when the groups before it were visited. */
  predicate StepFails(objs: map<ObjKey, Owner>, lo: nat, hi: nat, f: Faults)
    requires lo <= hi
  {
    lo < hi && (StepFails(objs, lo, hi - 1, f) || GroupFails(ClearedUpTo(objs, lo, hi - 1, f), hi - 1, f))
  }

  lemma {:induction false} FailsUpTo(objs: map<ObjKey, Owner>, lo: nat, mid: nat, hi: nat, f: Faults)
    requires lo <= mid <= hi && StepFails(objs, lo, mid, f)
    ensures StepFails(objs, lo, hi, f)
  {
    if mid < hi {
      FailsUpTo(objs, lo, mid, hi - 1, f);
    }
  }

  lemma AllStepsDoneIff(objs: map<ObjKey, Owner>, f: Faults)
    ensures StepsDone(objs, f) == 5 <==> !StepFails(objs, 0, GROUPS, f)
  {
    if StepFails(objs, 0, 2, f) {
      FailsUpTo(objs, 0, 2, GROUPS, f);
    } else if StepFails(objs, 0, 4, f) {
      FailsUpTo(objs, 0, 4, GROUPS, f);
    } else if StepFails(objs, 0, 5, f) {
      FailsUpTo(objs, 0, 5, GROUPS, f);
    } else if StepFails(objs, 0, 6, f) {
      FailsUpTo(objs, 0, 6, GROUPS, f);
    }
  }

  lemma {:induction false} StepsCompose(objs: map<ObjKey, Owner>, lo: nat, mid: nat, hi: nat, f: Faults)
    requires lo <= mid <= hi
    ensures ClearedUpTo(ClearedUpTo(objs, lo, mid, f), mid, hi, f) == ClearedUpTo(objs, lo, hi, f)
    ensures StepFails(objs, lo, hi, f) <==>
            StepFails(objs, lo, mid, f) || StepFails(ClearedUpTo(objs, lo, mid, f), mid, hi, f)
  {
    if mid < hi {
      StepsCompose(objs, lo, mid, hi - 1, f);
    }
  }

  // ---- What the steps amount to ----

  /** Groups share no object. */
  lemma GroupsAreDisjoint(g: nat, h: nat, k: ObjKey)
    requires InGroup(g, k) && InGroup(h, k)
    ensures g == h
  {
  }

  lemma {:induction false} ClearedUpToKeeps(objs: map<ObjKey, Owner>, hi: nat, f: Faults, k: ObjKey)
    ensures k in ClearedUpTo(objs, 0, hi, f) <==>
            k in objs && forall g: nat :: g < hi && InGroup(g, k) ==> (g < 6 && g in f.listing) || k in f.deleting
    ensures k in ClearedUpTo(objs, 0, hi, f) ==> ClearedUpTo(objs, 0, hi, f)[k] == objs[k]
  {
    if hi > 0 {
      ClearedUpToKeeps(objs, hi - 1, f, k);
    }
  }

  /** Every call works: each listing, each delete of a covered object, and the three named
      objects are there to be deleted. */
  ghost predicate AllCallsWork(objs: map<ObjKey, Owner>, f: Faults) {
    && (forall g: nat :: g < 6 ==> g !in f.listing)
    && (forall k :: k in objs && Covered(k) ==> k !in f.deleting)
    && (forall g :: 6 <= g < GROUPS ==> NamedTarget(g) in objs)
  }

  lemma NoGroupFailsIff(objs: map<ObjKey, Owner>, f: Faults)
    ensures (exists g: nat :: g < GROUPS && GroupFails(objs, g, f)) <==> !AllCallsWork(objs, f)
  {
    if g: nat :| g < GROUPS && GroupFails(objs, g, f) {
      assert g >= 6 && NamedTarget(g) in f.deleting ==> Covered(NamedTarget(g));
    }
    if !AllCallsWork(objs, f) {
      if k :| k in objs && Covered(k) && k in f.deleting {
        var g: nat :| g < GROUPS && InGroup(g, k);
        assert GroupFails(objs, g, f);
      } else if g: nat :| g < 6 && g in f.listing {
        assert GroupFails(objs, g, f);
      } else {
        var g :| 6 <= g < GROUPS && NamedTarget(g) !in objs;
        assert GroupFails(objs, g, f);
      }
    }
  }

  /** The cleanup succeeds exactly when every call works; then nothing covered is left. */
  lemma CleanupSucceedsIff(objs: map<ObjKey, Owner>, f: Faults)
    ensures !StepFails(objs, 0, GROUPS, f) <==> AllCallsWork(objs, f)
    ensures AllCallsWork(objs, f) ==>
              forall k :: k in ClearedUpTo(objs, 0, GROUPS, f) <==> k in objs && !Covered(k)
  {
    StepFailsWhen(objs, GROUPS, f);
    NoGroupFailsIff(objs, f);
    forall k ensures AllCallsWork(objs, f) ==> (k in ClearedUpTo(objs, 0, GROUPS, f) <==> k in objs && !Covered(k)) {
      ClearedUpToKeeps(objs, GROUPS, f, k);
    }
  }

  /** Whatever fails and wherever the cleanup stops, it never touches what no filter covers. */
  lemma CleanupTouchesOnlyCovered(objs: map<ObjKey, Owner>, hi: nat, f: Faults, k: ObjKey)
    requires hi <= GROUPS && k in objs && !Covered(k)
    ensures k in ClearedUpTo(objs, 0, hi, f) && ClearedUpTo(objs, 0, hi, f)[k] == objs[k]
  {
    ClearedUpToKeeps(objs, hi, f, k);
  }

  /** A group fails on the remaining objects just when it fails on the ones at the start:
      earlier groups cannot have touched its objects. */
  lemma GroupFailsAnyway(objs: map<ObjKey, Owner>, g: nat, f: Faults)
    requires g < GROUPS
    ensures GroupFails(ClearedUpTo(objs, 0, g, f), g, f) <==> GroupFails(objs, g, f)
  {
    forall k | InGroup(g, k) ensures k in ClearedUpTo(objs, 0, g, f) <==> k in objs {
      ClearedUpToKeeps(objs, g, f, k);
      forall h: nat | h < g && InGroup(h, k) ensures false {
        GroupsAreDisjoint(g, h, k);
      }
    }
  }

  lemma {:induction false} StepFailsWhen(objs: map<ObjKey, Owner>, hi: nat, f: Faults)
    requires hi <= GROUPS
    ensures StepFails(objs, 0, hi, f) <==> exists g: nat :: g < hi && GroupFails(objs, g, f)
  {
    if hi > 0 {
      StepFailsWhen(objs, hi - 1, f);
      GroupFailsAnyway(objs, hi - 1, f);
    }
  }
}
