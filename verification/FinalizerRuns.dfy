/** The finalizer's code as steps of its protocol: where the answers tell the truth about the server, adding and
    removing it is a run of the step system with the same effect, outcome and copy in use. */
module FinalizerRuns {
  import opened FinalizerModel
  import opened FinalizerSafety
  import T = SyncTrace

  /** The two answers of a look and a patch describe the server: the look finds the CR as it is, and a patch that gets
      through finds it too and, to add, unmarked. */
  predicate Truthful(w: World, get: T.Answer, patch: T.Answer, adds: bool)
    requires w.history != []
  {
    var live := Live(w);
    && (get.ok ==> live.present && (get.finalizer <==> live.fin))
    && (patch.ok || patch.wrote ==> live.present && (adds ==> !live.deleting))
  }

  lemma NoSteps(m: World)
    requires m.history != []
    ensures Run(m, [], m, false)
  {
  }

  method AddFinalizerIsRun(c: T.Reconciler, m: World, others: bool)
    returns (r: T.Outcome, local: bool, ghost steps: seq<Step>, ghost next: World)
    requires m.history != [] && m.phase == Begun && c.trace == []
    requires Truthful(m, c.answers(c.calls), c.answers(c.calls + 1), true)
    modifies c
    ensures next.history != [] && Run(m, steps, next, false)
    ensures T.FinalizerAdded in c.trace <==> !m.local.fin && !Live(m).fin && Live(next).fin
    ensures next.phase == if r.Proceed? then Finalized else Idle
    ensures r.Proceed? ==> (local <==> next.local.fin)
  {
    hide Run;
    ghost var get, patch := c.answers(c.calls), c.answers(c.calls + 1);
    r, local := c.AddFinalizer(m.local.fin);
    steps, next := [], m;
    NoSteps(m);
    if m.local.fin {
      steps, next := Then(m, [], m, TrustCopyForAdd);
    } else if !get.ok {
      steps, next := Then(m, [], m, Abort);
    } else {
      steps, next := Then(m, [], m, GetForAdd);
      if !get.finalizer {
        steps, next := Then(m, steps, next, if patch.ok || patch.wrote then PatchAdd(others, !patch.ok) else Abort);
      }
    }
  }

  method RemoveFinalizerIsRun(c: T.Reconciler, m: World, others: bool) returns (ghost steps: seq<Step>, ghost next: World)
    requires m.history != [] && m.phase == Removing && T.FinalizerRemoved !in c.trace
    requires Truthful(m, c.answers(c.calls), c.answers(c.calls + 1), false)
    modifies c
    ensures next.history != [] && Run(m, steps, next, false) && next.phase == Idle
    ensures T.FinalizerRemoved in c.trace <==> m.local.fin && Live(m).fin && !Live(next).fin
  {
    hide Run;
    ghost var get, patch := c.answers(c.calls), c.answers(c.calls + 1);
    c.RemoveFinalizer(m.local.fin);
    steps, next := [], m;
    NoSteps(m);
    if !m.local.fin {
      steps, next := Then(m, [], m, TrustCopyForRemove);
    } else if !get.ok {
      steps, next := Then(m, [], m, Abort);
    } else {
      steps, next := Then(m, [], m, GetForRemove);
      if get.finalizer {
        steps, next := Then(m, steps, next, if patch.ok || patch.wrote then PatchRemove(others, !patch.ok) else Abort);
      }
    }
  }
}
