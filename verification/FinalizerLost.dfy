/** A run in which the finalizer's promise breaks, built step by step. */
module FinalizerLost {
  import opened ClusterObjects
  import opened FinalizerModel
  import opened FinalizerSafety

  /** Deletes everything a group listed. */
  lemma {:induction false} Drain(w: World, steps: seq<Step>, m: World) returns (all: seq<Step>, next: World)
    requires w.history != [] && m.history != [] && Run(w, steps, m, false)
    requires m.phase.Cleaning? && forall k :: k in m.phase.todo ==> k in m.objs
    ensures next == m.(objs := m.objs - m.phase.todo, phase := m.phase.(todo := {}))
    ensures Run(w, all, next, false)
    decreases m.phase.todo
  {
    if m.phase.todo == {} {
      assert m.objs - {} == m.objs;
      all, next := steps, m;
    } else {
      var k :| k in m.phase.todo;
      all, next := Then(w, steps, m, DeleteListed(k, true));
      all, next := Drain(w, all, next);
      assert m.objs - {k} - (m.phase.todo - {k}) == m.objs - m.phase.todo;
    }
  }

  /** The ConfigMap and the two Secrets that step 5 deletes by name. */
  const NAMED := {MANAGER_CONFIG, WEBHOOK_SECRET, METRICS_SECRET}

  lemma NamedTargets(g: nat)
    requires 6 <= g < GROUPS
    ensures NamedTarget(g) in NAMED
    ensures forall h: nat :: InGroup(h, NamedTarget(g)) ==> h == g
  {
  }

  /** One group, listed and deleted without an error. */
  lemma ClearGroup(w: World, steps: seq<Step>, m: World) returns (all: seq<Step>, next: World)
    requires w.history != [] && m.history != [] && Run(w, steps, m, false)
    requires m.phase.Cleaning? && m.phase.group < GROUPS && m.phase == Cleaning(m.phase.group, false, {}, false)
    requires m.phase.group >= 6 ==> NamedTarget(m.phase.group) in m.objs
    ensures Run(w, all, next, false)
    ensures next == m.(objs := next.objs, phase := Cleaning(m.phase.group, true, {}, false))
    ensures forall k :: k in next.objs <==> k in m.objs && !InGroup(m.phase.group, k)
  {
    all, next := Then(w, steps, m, ListGroup(true));
    assert forall k :: k in next.phase.todo <==> k in m.objs && InGroup(m.phase.group, k);
    all, next := Drain(w, all, next);
  }

  /** A cleanup whose calls all succeed, and which finds the three named objects, ends with
      nothing covered left and goes on to the finalizer. */
  lemma {:induction false} UndisturbedCleanupFinishes(w: World, steps: seq<Step>, m: World)
    returns (all: seq<Step>, next: World)
    requires w.history != [] && m.history != [] && Run(w, steps, m, false)
    requires m.phase.Cleaning? && m.phase.group < GROUPS && m.phase == Cleaning(m.phase.group, false, {}, false)
    requires forall g :: 6 <= g < GROUPS && m.phase.group <= g ==> NamedTarget(g) in m.objs
    ensures Run(w, all, next, false)
    ensures next == m.(objs := next.objs, phase := Removing, stepsDone := next.stepsDone)
    ensures forall k, g :: k in next.objs && m.phase.group <= g < GROUPS ==> !InGroup(g, k)
    ensures next.objs.Keys <= m.objs.Keys
    decreases GROUPS - m.phase.group
  {
    hide Run;
    var g := m.phase.group;
    all, next := ClearGroup(w, steps, m);
    var cleared := next.objs;
    all, next := Then(w, all, next, NextGroup);
    if g + 1 < GROUPS {
      forall h | 6 <= h < GROUPS && g + 1 <= h ensures NamedTarget(h) in cleared {
        NamedTargets(h);
      }
      all, next := UndisturbedCleanupFinishes(w, all, next);
    }
  }

  /** Somebody creates the named objects that are missing. */
  lemma CreateNamed(w: World, steps: seq<Step>, m: World) returns (all: seq<Step>, next: World)
    requires w.history != [] && m.history != [] && Run(w, steps, m, false)
    ensures Run(w, all, next, false) && next == m.(objs := next.objs)
    ensures forall g :: 6 <= g < GROUPS ==> NamedTarget(g) in next.objs
  {
    all, next := steps, m;
    if MANAGER_CONFIG !in next.objs {
      all, next := Then(w, all, next, CreateObject(MANAGER_CONFIG));
    }
    if WEBHOOK_SECRET !in next.objs {
      all, next := Then(w, all, next, CreateObject(WEBHOOK_SECRET));
    }
    if METRICS_SECRET !in next.objs {
      all, next := Then(w, all, next, CreateObject(METRICS_SECRET));
    }
  }

  /** One sync on a cached copy that carries the finalizer and a deletion mark: it cleans up
      and takes the finalizer off whatever CR the server now holds. */
  lemma DeletionSync(w: World, steps: seq<Step>, m: World) returns (all: seq<Step>, next: World)
    requires w.history != [] && m.history != [] && Run(w, steps, m, false)
    requires m.phase == Idle && m.cached.present && m.cached.fin && m.cached.deleting
    requires Live(m).present && Live(m).fin && !Live(m).others
    ensures Run(w, all, next, false)
    ensures var c := Live(m).(fin := false);
      next == m.(history := m.history + [if Live(m).deleting then Gone(c.uid) else c], cached := c,
                 local := c, aliased := true, objs := next.objs, stepsDone := next.stepsDone, applied := {})
  {
    hide Run, InGroup;
    all, next := CreateNamed(w, steps, m);
    all, next := Then(w, all, next, Begin);
    all, next := Then(w, all, next, TrustCopyForAdd);
    all, next := Then(w, all, next, Branch);
    all, next := UndisturbedCleanupFinishes(w, all, next);
    all, next := Then(w, all, next, GetForRemove);
    all, next := Then(w, all, next, PatchRemove(false, false));
  }

  /** One sync on a cached copy without the finalizer, cut short right after the patch. */
  lemma AddingSync(w: World, steps: seq<Step>, m: World) returns (all: seq<Step>, next: World)
    requires w.history != [] && m.history != [] && Run(w, steps, m, false)
    requires m.phase == Idle && m.cached.present && !m.cached.fin
    requires Live(m).present && !Live(m).fin && !Live(m).deleting && !Live(m).others
    ensures Run(w, all, next, false)
    ensures var c := Live(m).(fin := true);
      next == m.(history := m.history + [c], cached := c, local := c, aliased := true,
                 stepsDone := 0, applied := {})
  {
    all, next := Then(w, steps, m, Begin);
    all, next := Then(w, all, next, GetForAdd);
    all, next := Then(w, all, next, PatchAdd(false, false));
    all, next := Then(w, all, next, Abort);
  }

  /** The promise can break. A CR is created, deleted and created again; the informer is one
      event behind when the operator, through the pointer into the informer's cache, gives the
      new CR the finalizer. The late event brings the old CR back into the cache, its cleanup
      takes the finalizer off the new CR, and the new CR's own late event then passes for a
      finalized one. */
  lemma FinalizerCanBeLost(w: World) returns (steps: seq<Step>, w': World)
    requires Init(w)
    ensures Run(w, steps, w', false) && w'.history != [] && !Safe(w')
  {
    w' := w;
    steps := [];
    assert Run(w, steps, w', false);
    hide Run, InGroup, OwnsCovered;
    steps, w' := Then(w, steps, w', CreateCR(false));
    steps, w' := Then(w, steps, w', Deliver(1));
    steps, w' := AddingSync(w, steps, w');
    steps, w' := Then(w, steps, w', Deliver(2));
    steps, w' := Then(w, steps, w', DeleteCR);
    steps, w' := Then(w, steps, w', Deliver(3));
    steps, w' := Then(w, steps, w', EditCR(false));
    steps, w' := SecondIncarnation(w, steps, w');
    OwnsManagerConfig(w');
  }

  lemma SecondIncarnation(w: World, steps: seq<Step>, m: World) returns (all: seq<Step>, next: World)
    requires w.history != [] && m.history != [] && Run(w, steps, m, false)
    requires m.phase == Idle && |m.history| == 5 && m.pos == 3
    requires m.history[3] == m.history[4] == m.cached == CR(1, true, true, true, false)
    ensures Run(w, all, next, false) && next.history != []
    ensures !Live(next).fin && MANAGER_CONFIG in next.objs && next.objs[MANAGER_CONFIG] == Operator
  {
    hide Run, InGroup;
    all, next := DeletionSync(w, steps, m);
    all, next := Then(w, all, next, CreateCR(false));
    all, next := AddingSync(w, all, next);
    all, next := Then(w, all, next, Deliver(4));
    all, next := DeletionSync(w, all, next);
    all, next := Then(w, all, next, Deliver(7));
    all, next := Then(w, all, next, Begin);
    all, next := Then(w, all, next, TrustCopyForAdd);
    all, next := Then(w, all, next, Branch);
    all, next := Then(w, all, next, ApplyObject(MANAGER_CONFIG));
  }
}
