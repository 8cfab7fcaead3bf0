/** The clean-up's loops as steps of the finalizer protocol: whatever fails, what the five steps do to the
    cluster is a run of list, delete and next-group steps with the same outcome. */
module CleanupRuns {
  import opened ClusterObjects
  import opened FinalizerModel
  import opened FinalizerSafety
  import C = Cleanup

  predicate Cleaning(steps: seq<Step>) {
    forall s :: s in steps ==> s.ListGroup? || s.DeleteListed? || s.NextGroup?
  }

  lemma CleaningOn(steps: seq<Step>, s: Step)
    requires Cleaning(steps) && (s.ListGroup? || s.DeleteListed? || s.NextGroup?)
    ensures Cleaning(steps + [s])
  {
  }

  /** One more clean-up step of a run. */
  lemma Clean(w: World, steps: seq<Step>, m: World, s: Step) returns (all: seq<Step>, next: World)
    requires w.history != [] && m.history != [] && Run(w, steps, m, false) && Enabled(m, s)
    requires Cleaning(steps) && (s.ListGroup? || s.DeleteListed? || s.NextGroup?)
    ensures next == Do(m, s) && next.history != [] && Run(w, all, next, false) && Cleaning(all)
  {
    all, next := Then(w, steps, m, s);
    CleaningOn(steps, s);
  }

  /** What deletes of these keys leave, and whether one of them fails. */
  function Without(objs: map<ObjKey, Owner>, todo: set<ObjKey>, f: C.Faults): map<ObjKey, Owner> {
    map k | k in objs && !(k in todo && k !in f.deleting) :: objs[k]
  }

  predicate SomeDeleteFails(objs: map<ObjKey, Owner>, todo: set<ObjKey>, f: C.Faults) {
    exists k :: k in todo && (k !in objs || k in f.deleting)
  }

  lemma {:induction false} DrainIsRun(w: World, steps: seq<Step>, m: World, f: C.Faults)
    returns (all: seq<Step>, next: World)
    requires w.history != [] && m.history != [] && Run(w, steps, m, false) && Cleaning(steps)
    requires m.phase.Cleaning?
    ensures Run(w, all, next, false) && Cleaning(all)
    ensures next == m.(objs := Without(m.objs, m.phase.todo, f),
                       phase := m.phase.(todo := {}, failed := m.phase.failed || SomeDeleteFails(m.objs, m.phase.todo, f)))
    decreases m.phase.todo
  {
    hide Run, Cleaning;
    if m.phase.todo == {} {
      assert Without(m.objs, {}, f) == m.objs;
      all, next := steps, m;
    } else {
      var k :| k in m.phase.todo;
      all, next := Clean(w, steps, m, DeleteListed(k, k !in f.deleting));
      var mid := next;
      all, next := DrainIsRun(w, all, mid, f);
      DrainStep(m.objs, m.phase.todo, k, f);
      assert mid.objs == Without(m.objs, {k}, f);
    }
  }

  lemma DrainStep(objs: map<ObjKey, Owner>, todo: set<ObjKey>, k: ObjKey, f: C.Faults)
    requires k in todo
    ensures Without(Without(objs, {k}, f), todo - {k}, f) == Without(objs, todo, f)
    ensures SomeDeleteFails(objs, todo, f) <==>
            (k !in objs || k in f.deleting) || SomeDeleteFails(Without(objs, {k}, f), todo - {k}, f)
  {
    var rest := Without(objs, {k}, f);
    forall j | j in todo - {k} ensures j in rest <==> j in objs {
    }
  }

  lemma GroupIsRun(w: World, steps: seq<Step>, m: World, f: C.Faults) returns (all: seq<Step>, next: World)
    requires w.history != [] && m.history != [] && Run(w, steps, m, false) && Cleaning(steps)
    requires m.phase.Cleaning? && m.phase.group < GROUPS && !m.phase.listed && m.phase.todo == {}
    ensures Run(w, all, next, false) && Cleaning(all)
    ensures var g := m.phase.group;
      next == m.(objs := C.Cleared(m.objs, g, f),
                 phase := FinalizerModel.Cleaning(g, true, {}, m.phase.failed || C.GroupFails(m.objs, g, f)))
  {
    hide Run, Cleaning, InGroup;
    var g := m.phase.group;
    all, next := Clean(w, steps, m, ListGroup(g !in f.listing));
    if g < 6 && g in f.listing {
      assert C.Cleared(m.objs, g, f) == m.objs;
    } else {
      var listed := next;
      all, next := DrainIsRun(w, all, listed, f);
      DrainClears(m.objs, g, f, listed.phase.todo);
    }
  }

  lemma DrainClears(objs: map<ObjKey, Owner>, g: nat, f: C.Faults, todo: set<ObjKey>)
    requires g < GROUPS && (g < 6 ==> g !in f.listing)
    requires todo == if g < 6 then set k | k in objs && InGroup(g, k) else {NamedTarget(g)}
    ensures Without(objs, todo, f) == C.Cleared(objs, g, f)
    ensures SomeDeleteFails(objs, todo, f) <==> C.GroupFails(objs, g, f)
  {
    hide InGroup;
    if g >= 6 {
      assert NamedTarget(g) in todo;
    }
  }

  /** The first group of the step that visits g. */
  function FirstOfStep(g: nat): nat {
    if g <= 1 then 0 else if g <= 3 then 2 else if g <= 5 then g else 6
  }

  /** Where the step of group g stops: at its last group, if that is g. */
  lemma StepStops(objs: map<ObjKey, Owner>, g: nat, f: C.Faults)
    requires g < GROUPS && (g + 1 == GROUPS || StepOf(g + 1) != StepOf(g))
    requires !C.StepFails(objs, 0, FirstOfStep(g), f)
    ensures C.StepFails(objs, 0, g + 1, f) ==>
      C.StepsDone(objs, f) == StepOf(g) - 1 && C.LastGroup(StepOf(g) - 1) == g + 1
    ensures !C.StepFails(objs, 0, g + 1, f) && g + 1 == GROUPS ==>
      C.StepsDone(objs, f) == 5 && C.LastGroup(5) == g + 1
    ensures g + 1 < GROUPS ==> FirstOfStep(g + 1) == g + 1 && StepOf(g + 1) == StepOf(g) + 1
  {
    EarlierStepsWork(objs, FirstOfStep(g), f);
    if !C.StepFails(objs, 0, g + 1, f) {
      EarlierStepsWork(objs, g + 1, f);
    }
    hide C.StepFails;
  }

  lemma EarlierStepsWork(objs: map<ObjKey, Owner>, hi: nat, f: C.Faults)
    requires !C.StepFails(objs, 0, hi, f)
    ensures forall lo: nat :: lo <= hi ==> !C.StepFails(objs, 0, lo, f)
  {
    forall lo: nat | lo <= hi ensures !C.StepFails(objs, 0, lo, f) {
      if C.StepFails(objs, 0, lo, f) {
        C.FailsUpTo(objs, 0, lo, hi, f);
      }
    }
  }

  /** Where a sync's clean-up of these objects stands before group g. */
  predicate At(m: World, g: nat, objs: map<ObjKey, Owner>, done: nat, f: C.Faults) {
    && g < GROUPS
    && m.phase == FinalizerModel.Cleaning(g, false, {}, C.StepFails(objs, 0, g, f))
    && m.objs == C.ClearedUpTo(objs, 0, g, f)
    && m.stepsDone + 1 == done + StepOf(g)
    && !C.StepFails(objs, 0, FirstOfStep(g), f)
  }

  /** How it ends. */
  function Finished(m: World, objs: map<ObjKey, Owner>, done: nat, f: C.Faults): World {
    var k := C.StepsDone(objs, f);
    m.(objs := C.ClearedUpTo(objs, 0, C.LastGroup(k), f), phase := if k == 5 then Removing else Idle,
       stepsDone := done + k)
  }

  predicate GoesOn(g: nat, objs: map<ObjKey, Owner>, f: C.Faults) {
    g + 1 < GROUPS && (StepOf(g + 1) == StepOf(g) || !C.StepFails(objs, 0, g + 1, f))
  }

  lemma EndsBeforeGroups(g: nat, objs: map<ObjKey, Owner>, f: C.Faults)
    requires GoesOn(g, objs, f)
    ensures g + 1 < GROUPS
  {
  }

  /** The group is done: what is left of it, and its errors. */
  predicate Visited(m: World, mid: World, g: nat, f: C.Faults) {
    && m.phase.Cleaning? && mid.history != []
    && mid == m.(objs := C.Cleared(m.objs, g, f),
                 phase := FinalizerModel.Cleaning(g, true, {}, m.phase.failed || C.GroupFails(m.objs, g, f)))
  }

  lemma VisitedSoFar(m: World, mid: World, g: nat, objs: map<ObjKey, Owner>, done: nat, f: C.Faults)
    requires At(m, g, objs, done, f) && Visited(m, mid, g, f)
    ensures mid == m.(objs := C.ClearedUpTo(objs, 0, g + 1, f),
                      phase := FinalizerModel.Cleaning(g, true, {}, C.StepFails(objs, 0, g + 1, f)))
    ensures Enabled(mid, NextGroup)
  {
    hide C.Cleared, C.GroupFails;
  }

  lemma NextGroupGoesOn(m: World, mid: World, g: nat, objs: map<ObjKey, Owner>, done: nat, f: C.Faults)
    requires At(m, g, objs, done, f) && Visited(m, mid, g, f) && GoesOn(g, objs, f)
    ensures Enabled(mid, NextGroup) && At(Do(mid, NextGroup), g + 1, objs, done, f)
    ensures Finished(Do(mid, NextGroup), objs, done, f) == Finished(m, objs, done, f)
  {
    VisitedSoFar(m, mid, g, objs, done, f);
    hide C.StepFails, C.ClearedUpTo, C.StepsDone, C.LastGroup, Visited;
    if StepOf(g + 1) != StepOf(g) {
      StepStops(objs, g, f);
    }
  }

  lemma NextGroupEnds(m: World, mid: World, g: nat, objs: map<ObjKey, Owner>, done: nat, f: C.Faults)
    requires At(m, g, objs, done, f) && Visited(m, mid, g, f) && !GoesOn(g, objs, f)
    ensures Enabled(mid, NextGroup) && Do(mid, NextGroup) == Finished(m, objs, done, f)
  {
    VisitedSoFar(m, mid, g, objs, done, f);
    StepStops(objs, g, f);
    hide C.StepFails, C.ClearedUpTo, C.StepsDone, C.LastGroup, Visited;
  }

  lemma {:induction false} RestIsRun(
    w: World, steps: seq<Step>, m: World, g: nat, objs: map<ObjKey, Owner>, done: nat, f: C.Faults
  ) returns (all: seq<Step>, next: World)
    requires w.history != [] && m.history != [] && Run(w, steps, m, false) && Cleaning(steps)
    requires At(m, g, objs, done, f)
    ensures Run(w, all, next, false) && Cleaning(all) && next == Finished(m, objs, done, f)
    decreases GROUPS - g
  {
    hide Run, Cleaning, Finished, GoesOn, Do, Enabled;
    all, next := GroupIsRun(w, steps, m, f);
    var mid := next;
    if GoesOn(g, objs, f) {
      EndsBeforeGroups(g, objs, f);
      NextGroupGoesOn(m, mid, g, objs, done, f);
      hide At;
      all, next := Clean(w, all, mid, NextGroup);
      all, next := RestIsRun(w, all, next, g + 1, objs, done, f);
    } else {
      NextGroupEnds(m, mid, g, objs, done, f);
      all, next := Clean(w, all, mid, NextGroup);
    }
  }

  /** The five steps as code and as protocol: for any cluster and any failing calls there is a run of clean-up
      steps that leaves what Cluster.CleanUp leaves, counts the steps it counts, and goes on to the finalizer
      exactly when it reports success. */
  lemma CleanUpIsRun(m: World, f: C.Faults) returns (steps: seq<Step>, next: World)
    requires m.history != [] && m.phase == FinalizerModel.Cleaning(0, false, {}, false) && m.stepsDone == 0
    ensures Run(m, steps, next, false) && Cleaning(steps)
    ensures var k := C.StepsDone(m.objs, f);
      next == m.(objs := C.ClearedUpTo(m.objs, 0, C.LastGroup(k), f), phase := if k == 5 then Removing else Idle,
                 stepsDone := k)
  {
    steps, next := RestIsRun(m, [], m, 0, m.objs, 0, f);
  }

  /** The code's own clean-up ends where that run ends. */
  method CleanUpRefines(c: C.Cluster, m: World, f: C.Faults)
    returns (ok: bool, stepsDone: nat, ghost steps: seq<Step>, ghost next: World)
    requires m.history != [] && m.phase == FinalizerModel.Cleaning(0, false, {}, false) && m.stepsDone == 0
    requires c.objects == m.objs
    modifies c
    ensures Run(m, steps, next, false) && Cleaning(steps)
    ensures c.objects == next.objs && stepsDone == next.stepsDone && (ok <==> next.phase == Removing)
  {
    steps, next := CleanUpIsRun(m, f);
    ok, stepsDone := c.CleanUp(f);
  }
}
