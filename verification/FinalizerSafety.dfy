/** What the finalizer protocol keeps over whole runs, where it fails, and exactly when. */
module FinalizerSafety {
  import opened ClusterObjects
  import opened FinalizerModel

  // ---- The invariant ----

  /** A copy on whose word a sync would go straight on to applying objects. */
  predicate LooksReady(c: CR) {
    c.fin && !c.deleting
  }

  /** The informer's copy vouches for a finalizer the server's CR does not have. */
  predicate Misled(w: World)
    requires w.history != []
  {
    LooksReady(w.cached) && !Live(w).fin
  }

  /** What may follow a server state: uids grow, and a deletion mark stays for its uid. */
  predicate Follows(c: CR, d: CR) {
    c.uid <= d.uid && (c.uid == d.uid && c.deleting ==> d.deleting)
  }

  predicate WellFormed(c: CR) {
    !c.present ==> c.deleting && !c.fin
  }

  predicate Chain(h: seq<CR>) {
    && h != []
    && WellFormed(h[|h| - 1])
    && (|h| > 1 ==> Follows(h[|h| - 2], h[|h| - 1]) && Chain(h[..|h| - 1]))
  }

  lemma {:induction false} ChainFollows(h: seq<CR>, i: nat, j: nat)
    requires Chain(h) && i <= j < |h|
    ensures Follows(h[i], h[j])
    decreases |h|
  {
    if j + 1 < |h| {
      ChainFollows(h[..|h| - 1], i, j);
    } else if i < j {
      ChainFollows(h[..|h| - 1], i, j - 1);
    }
  }

  ghost predicate HistoryOk(w: World) {
    w.pos < |w.history| && Chain(w.history)
  }

  /** A copy the worker may still act on: in the indexer, in its hands, or on its way. */
  ghost predicate Visible(w: World, c: CR) {
    || c == w.cached
    || (w.phase != Idle && c == w.local)
    || InTransit(w, c)
  }

  ghost predicate InTransit(w: World, c: CR) {
    exists i :: w.pos <= i < |w.history| && w.history[i] == c
  }

  /** The informer itself has delivered this copy. */
  ghost predicate Delivered(w: World, c: CR) {
    exists i :: 0 <= i <= w.pos && i < |w.history| && w.history[i] == c
  }

  /** Any copy that looks ready is right about the server: the CR there has the finalizer. */
  ghost predicate ReadyCopiesOk(w: World)
    requires HistoryOk(w)
  {
    forall c :: Visible(w, c) && LooksReady(c) ==> Live(w).fin
  }

  /** Where the copies come from: a finalized copy with a deletion mark was delivered. */
  ghost predicate ProvenanceOk(w: World)
    requires HistoryOk(w)
  {
    && (w.cached.fin && w.cached.deleting ==> Delivered(w, w.cached))
    && (w.phase != Idle && w.local.fin && w.local.deleting ==> Delivered(w, w.local))
    && (w.phase != Idle ==> w.cached == if w.aliased then w.local else w.history[w.pos])
  }

  ghost predicate CopiesOk(w: World)
    requires HistoryOk(w)
  {
    ReadyCopiesOk(w) && ProvenanceOk(w)
  }

  /** What the worker knows in each phase. */
  ghost predicate PhaseOk(w: World)
    requires HistoryOk(w)
  {
    && (InCleanup(w) ==> w.local.deleting)
    && (w.phase == RemovePatch ==> w.local.fin)
    && (w.phase == Finalized ==> w.local.deleting || Live(w).fin)
    && (w.phase == Applying ==> Live(w).fin)
  }

  predicate InCleanup(w: World) {
    w.phase.Cleaning? || w.phase == Removing || w.phase == RemovePatch
  }

  ghost predicate OwnsIn(w: World, g: nat) {
    exists k :: k in w.objs && w.objs[k] == Operator && InGroup(g, k)
  }

  ghost predicate CleanupOk(w: World) {
    && (w.phase != Idle && w.phase != Applying ==> w.applied == {})
    && (w.phase == Begun || w.phase == AddPatch || w.phase == Finalized ==> w.stepsDone == 0)
    && (w.phase.Cleaning? ==>
          var p := w.phase;
          && p.group < GROUPS
          && w.stepsDone + 1 == StepOf(p.group)
          && (!p.listed ==> p.todo == {})
          && (!p.failed ==> forall g: nat :: g < p.group ==> !OwnsIn(w, g))
          && (!p.failed && p.listed ==>
                forall k :: k in w.objs && w.objs[k] == Operator && InGroup(p.group, k) ==> k in p.todo))
    && (w.phase == Removing || w.phase == RemovePatch ==> w.stepsDone == 5 && !OwnsCovered(w))
  }

  ghost predicate Inv(w: World) {
    HistoryOk(w) && CopiesOk(w) && PhaseOk(w) && CleanupOk(w) && Safe(w)
  }

  // ---- Every step keeps it, as long as no removal is misdirected ----

  lemma PushKeepsHistoryOk(w: World, c: CR)
    requires HistoryOk(w) && Follows(Live(w), c) && WellFormed(c)
    ensures HistoryOk(Push(w, c))
  {
    assert (w.history + [c])[..|w.history|] == w.history;
  }

  /** Copies on their way stay on their way, and delivered ones stay delivered. */
  lemma PushKeepsCopies(w: World, c: CR)
    requires w.history != []
    ensures forall d :: InTransit(Push(w, c), d) ==> d == c || InTransit(w, d)
    ensures forall d :: Delivered(w, d) ==> Delivered(Push(w, c), d)
  {
    var h := w.history + [c];
    forall d | Delivered(w, d) ensures Delivered(Push(w, c), d) {
      var i :| 0 <= i <= w.pos && i < |w.history| && w.history[i] == d;
      assert h[i] == d;
    }
  }

  /** Steps of everybody but the worker: they leave its phase and copy alone. */
  predicate Outside(s: Step) {
    s.CreateCR? || s.DeleteCR? || s.EditCR? || s.Deliver? || s.CreateObject? || s.DeleteObject?
  }

  /** The steps that may change the CR on the server. */
  predicate ChangesCR(s: Step) {
    s.CreateCR? || s.DeleteCR? || s.EditCR? || s.PatchAdd? || s.PatchRemove?
  }

  lemma ChangeFollows(w: World, s: Step) returns (c: CR)
    requires HistoryOk(w) && Enabled(w, s) && ChangesCR(s)
    ensures Do(w, s).pos == w.pos
    ensures Do(w, s).history == w.history || Do(w, s).history == w.history + [c]
    ensures Follows(Live(w), c) && WellFormed(c)
  {
    var h := Do(w, s).history;
    c := h[|h| - 1];
  }

  lemma OtherStepsKeepHistory(w: World, s: Step)
    requires w.pos < |w.history| && Enabled(w, s) && !ChangesCR(s)
    ensures Do(w, s).history == w.history && Do(w, s).pos < |w.history|
  {
  }

  lemma StepKeepsHistoryOk(w: World, s: Step)
    requires HistoryOk(w) && Enabled(w, s)
    ensures HistoryOk(Do(w, s))
  {
    if ChangesCR(s) {
      var c := ChangeFollows(w, s);
      PushKeepsHistoryOk(w, c);
    } else {
      OtherStepsKeepHistory(w, s);
    }
    hide Do, Enabled, Chain;
  }

  lemma OutsideStepKeepsCleanupOk(w: World, s: Step)
    requires HistoryOk(w) && CleanupOk(w) && Enabled(w, s)
    requires Outside(s)
    ensures CleanupOk(Do(w, s))
  {
    OwnsNoMore(w, Do(w, s));
    hide Chain;
  }

  lemma NextGroupKeepsCleanupOk(w: World)
    requires CleanupOk(w) && w.history != [] && Enabled(w, NextGroup)
    ensures CleanupOk(Do(w, NextGroup))
  {
    OwnsNoMore(w, Do(w, NextGroup));
    if !w.phase.failed {
      GroupIsClean(w);
    }
    hide InGroup, OwnsCovered;
  }

  lemma CleaningStepKeepsCleanupOk(w: World, s: Step)
    requires HistoryOk(w) && CleanupOk(w) && Enabled(w, s)
    requires s.ListGroup? || s.DeleteListed? || s.NextGroup?
    ensures CleanupOk(Do(w, s))
  {
    hide Chain;
    if s == NextGroup {
      NextGroupKeepsCleanupOk(w);
    } else {
      OwnsNoMore(w, Do(w, s));
    }
  }

  lemma StepKeepsCleanupOk(w: World, s: Step)
    requires HistoryOk(w) && CleanupOk(w) && Enabled(w, s)
    ensures CleanupOk(Do(w, s))
  {
    if Outside(s) {
      OutsideStepKeepsCleanupOk(w, s);
    } else if s.ListGroup? || s.DeleteListed? || s.NextGroup? {
      CleaningStepKeepsCleanupOk(w, s);
    } else {
      hide Chain;
      if !s.ApplyObject? {
        OwnsNoMore(w, Do(w, s));
      }
    }
  }

  lemma OwnsNoMore(w: World, w': World)
    requires forall k :: k in w'.objs && w'.objs[k] == Operator ==> k in w.objs && w.objs[k] == Operator
    ensures forall g: nat :: OwnsIn(w', g) ==> OwnsIn(w, g)
    ensures OwnsCovered(w') ==> OwnsCovered(w)
  {
  }

  lemma GroupIsClean(w: World)
    requires CleanupOk(w) && w.phase.Cleaning? && w.phase.listed && w.phase.todo == {} && !w.phase.failed
    ensures forall g: nat :: g <= w.phase.group ==> !OwnsIn(w, g)
    ensures w.phase.group + 1 == GROUPS ==> !OwnsCovered(w)
  {
    if w.phase.group + 1 == GROUPS && OwnsCovered(w) {
      var k :| k in w.objs && w.objs[k] == Operator && Covered(k);
      var g: nat :| g < GROUPS && InGroup(g, k);
      assert OwnsIn(w, g);
    }
  }

  /** Once the informer has delivered an incarnation's deletion mark, nothing on its way
      shows that incarnation unmarked, and nothing shows an older incarnation. */
  lemma NothingReadyInTransit(w: World)
    requires HistoryOk(w)
    requires Delivered(w, w.local) && w.local.deleting && Live(w).uid == w.local.uid
    ensures forall c :: InTransit(w, c) ==> !LooksReady(c)
  {
    var d :| 0 <= d <= w.pos && d < |w.history| && w.history[d] == w.local;
    forall c | InTransit(w, c) ensures !LooksReady(c) {
      var i :| w.pos <= i < |w.history| && w.history[i] == c;
      ChainFollows(w.history, d, i);
      ChainFollows(w.history, i, |w.history| - 1);
    }
  }

  lemma DeliverKeepsCopiesOk(w: World, s: Step)
    requires HistoryOk(w) && CopiesOk(w) && s.Deliver? && Enabled(w, s)
    ensures HistoryOk(Do(w, s)) && CopiesOk(Do(w, s))
  {
    var w' := Do(w, s);
    forall c | Delivered(w, c) || c == w'.cached ensures Delivered(w', c) {
      assert w'.history[w'.pos] == w'.cached;
    }
    forall c | InTransit(w', c) || c == w'.cached ensures Visible(w, c) {
      assert w'.history[w'.pos] == w'.cached;
    }
  }

  lemma PushKeepsCopiesOk(w: World, c: CR)
    requires HistoryOk(w) && CopiesOk(w) && Follows(Live(w), c) && WellFormed(c)
    requires Live(w).fin ==> c.fin
    ensures HistoryOk(Push(w, c)) && CopiesOk(Push(w, c))
  {
    PushKeepsHistoryOk(w, c);
    PushKeepsCopies(w, c);
    assert w.history[w.pos] == Push(w, c).history[w.pos];
  }

  /** Where a patch leaves the copies: in Idle or Finalized, written back unless the reply was lost. */
  lemma StoreKeepsCopiesOk(w: World, c: CR, phase: Phase)
    requires HistoryOk(w) && CopiesOk(w) && w.phase != Idle
    requires !(c.fin && c.deleting) && (LooksReady(c) ==> Live(w).fin)
    ensures CopiesOk(w.(phase := phase)) && CopiesOk(StorePatched(w, c).(phase := phase))
  {
  }

  lemma PatchAddKeepsCopiesOk(w: World, s: Step)
    requires HistoryOk(w) && CopiesOk(w) && s.PatchAdd? && Enabled(w, s)
    ensures HistoryOk(Do(w, s)) && CopiesOk(Do(w, s))
  {
    var live := Live(w);
    if live.present && !live.deleting {
      var c := live.(fin := true, others := s.others);
      PushKeepsCopiesOk(w, c);
      StoreKeepsCopiesOk(Push(w, c), c, if s.lost then Idle else Finalized);
    }
  }

  /** A removal that meets a finalizer: every copy still on its way is marked deleted. */
  lemma ClearingKeepsCopiesOk(w: World, c: CR)
    requires HistoryOk(w) && CopiesOk(w) && PhaseOk(w) && w.phase == RemovePatch
    requires Live(w).uid == w.local.uid
    requires Follows(Live(w), c) && WellFormed(c) && !c.fin
    ensures HistoryOk(Push(w, c)) && CopiesOk(Push(w, c))
  {
    PushKeepsHistoryOk(w, c);
    PushKeepsCopies(w, c);
    NothingReadyInTransit(w);
    assert w.history[w.pos] == Push(w, c).history[w.pos];
    assert InTransit(w, w.history[w.pos]);
  }

  lemma PatchRemoveKeepsCopiesOk(w: World, s: Step)
    requires HistoryOk(w) && CopiesOk(w) && PhaseOk(w)
    requires s.PatchRemove? && Enabled(w, s) && !Misdirected(w, s)
    ensures HistoryOk(Do(w, s)) && CopiesOk(Do(w, s))
  {
    var live := Live(w);
    if live.present {
      var c := live.(fin := false, others := s.others);
      var d := if live.deleting && !s.others then Gone(live.uid) else c;
      if live.fin {
        ClearingKeepsCopiesOk(w, d);
      } else {
        PushKeepsCopiesOk(w, d);
      }
      StoreKeepsCopiesOk(Push(w, d), c, Idle);
    }
  }

  lemma QuietStepKeepsCopiesOk(w: World, w': World)
    requires HistoryOk(w) && CopiesOk(w)
    requires w'.history == w.history && w'.pos == w.pos
    requires w'.cached == w.cached && w'.local == w.local && w'.aliased == w.aliased
    requires w.phase == Idle ==> w'.phase == Idle
    ensures HistoryOk(w') && CopiesOk(w')
  {
  }

  lemma RestartKeepsCopiesOk(w: World)
    requires HistoryOk(w)
    ensures HistoryOk(Do(w, Restart)) && CopiesOk(Do(w, Restart))
  {
  }

  lemma BeginKeepsCopiesOk(w: World)
    requires HistoryOk(w) && CopiesOk(w) && Enabled(w, Begin)
    ensures CopiesOk(Do(w, Begin))
  {
  }

  lemma OutsideStepKeepsCopiesOk(w: World, s: Step)
    requires HistoryOk(w) && CopiesOk(w) && Enabled(w, s) && Outside(s)
    ensures HistoryOk(Do(w, s)) && CopiesOk(Do(w, s))
  {
    assert WellFormed(Live(w));
    hide Chain, CopiesOk;
    if s.CreateCR? {
      PushKeepsCopiesOk(w, CR(Live(w).uid + 1, true, false, false, s.others));
    } else if s == DeleteCR {
      PushKeepsCopiesOk(w, AfterDelete(Live(w)));
    } else if s.EditCR? {
      PushKeepsCopiesOk(w, AfterEdit(Live(w), s.others));
    } else if s.Deliver? {
      DeliverKeepsCopiesOk(w, s);
    } else {
      QuietStepKeepsCopiesOk(w, Do(w, s));
    }
  }

  lemma StepKeepsCopiesOk(w: World, s: Step)
    requires HistoryOk(w) && CopiesOk(w) && PhaseOk(w) && Enabled(w, s) && !Misdirected(w, s)
    ensures HistoryOk(Do(w, s)) && CopiesOk(Do(w, s))
  {
    hide Chain, CopiesOk;
    if Outside(s) {
      OutsideStepKeepsCopiesOk(w, s);
    } else if s == Restart {
      RestartKeepsCopiesOk(w);
    } else if s == Begin {
      BeginKeepsCopiesOk(w);
    } else if s.PatchAdd? {
      PatchAddKeepsCopiesOk(w, s);
    } else if s.PatchRemove? {
      PatchRemoveKeepsCopiesOk(w, s);
    } else {
      QuietStepKeepsCopiesOk(w, Do(w, s));
    }
  }

  /** Only the add patch puts the finalizer on the server's CR, and only on one that is there and not marked for
      deletion. */
  lemma OnlyAddingSets(w: World, s: Step)
    requires w.history != [] && Enabled(w, s) && !Live(w).fin
    ensures var next := Do(w, s);
      next.history != [] && (Live(next).fin ==>
        s.PatchAdd? && Live(w).present && !Live(w).deleting && Live(next).uid == Live(w).uid)
  {
    DoKeepsHistory(w, s);
  }

  /** A CR is gone from the server only once nobody's finalizer is left on it: at once when it is deleted without any,
      else with the edit or the removal that takes the last one off a marked one. */
  lemma GoneMeansReleased(w: World, s: Step)
    requires w.history != [] && Enabled(w, s) && Live(w).present
    ensures var live, next := Live(w), Do(w, s);
      next.history != [] && (!Live(next).present <==>
        || (s.DeleteCR? && !live.fin && !live.others)
        || (s.EditCR? && live.deleting && !live.fin && !s.others)
        || (s.PatchRemove? && live.deleting && !s.others))
  {
    DoKeepsHistory(w, s);
  }

  /** Nothing but a removal patch takes the finalizer off the CR on the server. */
  lemma OnlyRemovalClears(w: World, s: Step)
    requires w.history != [] && WellFormed(Live(w)) && Enabled(w, s)
    requires Live(w).fin && (DoKeepsHistory(w, s); !Live(Do(w, s)).fin)
    ensures w.phase == RemovePatch && s.PatchRemove?
  {
  }

  lemma OutsideStepKeepsWorker(w: World, s: Step)
    requires w.history != [] && WellFormed(Live(w)) && Enabled(w, s) && Outside(s)
    ensures Do(w, s).history != []
    ensures Do(w, s).phase == w.phase && Do(w, s).local == w.local && (Live(w).fin ==> Live(Do(w, s)).fin)
  {
    DoKeepsHistory(w, s);
  }

  lemma WorkerStepKeepsPhaseOk(w: World, s: Step)
    requires HistoryOk(w) && PhaseOk(w) && Enabled(w, s) && !Outside(s) && HistoryOk(Do(w, s))
    requires w.phase != Idle && LooksReady(w.local) ==> Live(w).fin
    requires s == Begin || (Live(w).fin && !Live(Do(w, s)).fin ==> s.PatchRemove?)
    ensures PhaseOk(Do(w, s))
  {
    hide Chain;
  }

  lemma StepKeepsPhaseOk(w: World, s: Step)
    requires HistoryOk(w) && CopiesOk(w) && PhaseOk(w) && Enabled(w, s)
    ensures HistoryOk(Do(w, s)) && PhaseOk(Do(w, s))
  {
    StepKeepsHistoryOk(w, s);
    if Outside(s) {
      OutsideStepKeepsWorker(w, s);
    } else {
      if Live(w).fin && !Live(Do(w, s)).fin {
        OnlyRemovalClears(w, s);
      }
      assert w.phase != Idle ==> Visible(w, w.local);
      WorkerStepKeepsPhaseOk(w, s);
    }
    hide Do, Enabled, CopiesOk, Chain;
  }

  lemma StepKeepsSafe(w: World, s: Step)
    requires HistoryOk(w) && CleanupOk(w) && Safe(w) && Enabled(w, s)
    requires w.phase == Applying ==> Live(w).fin
    ensures HistoryOk(Do(w, s)) && Safe(Do(w, s))
  {
    StepKeepsHistoryOk(w, s);
    var w' := Do(w, s);
    if s.ApplyObject? {
      assert Live(w') == Live(w);
    } else {
      OwnsNoMore(w, w');
      if Live(w).fin && !Live(w').fin {
        OnlyRemovalClears(w, s);
        assert !OwnsCovered(w);
      }
    }
    hide Do, Chain, CleanupOk, OwnsCovered;
  }

  lemma StepKeepsInv(w: World, s: Step)
    requires Inv(w) && Enabled(w, s) && !Misdirected(w, s)
    ensures Inv(Do(w, s))
  {
    StepKeepsCopiesOk(w, s);
    StepKeepsPhaseOk(w, s);
    StepKeepsCleanupOk(w, s);
    StepKeepsSafe(w, s);
  }

  // ---- Whole runs ----

  lemma {:induction false} RunKeepsInv(w: World, steps: seq<Step>, w': World)
    requires Inv(w) && Run(w, steps, w', true)
    ensures Inv(w')
    decreases |steps|
  {
    if steps != [] {
      StepKeepsInv(w, steps[0]);
      RunKeepsInv(Do(w, steps[0]), steps[1..], w');
    }
  }

  lemma {:induction false} RunKeepsCleanupOk(w: World, steps: seq<Step>, w': World)
    requires HistoryOk(w) && CleanupOk(w) && Run(w, steps, w', false)
    ensures HistoryOk(w') && CleanupOk(w')
    decreases |steps|
  {
    if steps != [] {
      StepKeepsHistoryOk(w, steps[0]);
      StepKeepsCleanupOk(w, steps[0]);
      RunKeepsCleanupOk(Do(w, steps[0]), steps[1..], w');
    }
  }

  /** In every run, misdirected or not: the step that takes the finalizer away ends a sync
      whose five cleanup steps all returned nil, which applied nothing, and at that moment
      nothing the cleanup covers is left. */
  lemma RemovalEndsFullCleanup(w: World, steps: seq<Step>, w': World, s: Step)
    requires Init(w) && Run(w, steps, w', false)
    requires w'.history != [] && Enabled(w', s) && Live(w').fin
    requires (DoKeepsHistory(w', s); !Live(Do(w', s)).fin)
    ensures s.PatchRemove? && w'.stepsDone == 5 && w'.applied == {} && !OwnsCovered(w')
  {
    RunKeepsCleanupOk(w, steps, w');
    OnlyRemovalClears(w', s);
  }

  // ---- One sync, exactly ----

  /** A sync that begins in w can get to w', in some interleaving with everybody else's steps. */
  ghost predicate SyncReaches(w: World, steps: seq<Step>, w': World)
    requires w.history != [] && Enabled(w, Begin)
  {
    Begin !in steps && w'.history != [] && Run(Do(w, Begin), steps, w', false)
  }

  /** What keeps a sync safe while it runs. */
  ghost predicate SyncOk(w: World)
    requires w.history != []
  {
    && (w.phase == Begun && LooksReady(w.local) ==> Live(w).fin)
    && (w.phase == Finalized ==> w.local.deleting || Live(w).fin)
    && (w.phase == Applying ==> Live(w).fin)
  }

  lemma WorkerStepKeepsSyncOk(w: World, s: Step)
    requires w.history != [] && Enabled(w, s) && s != Begin && !Outside(s) && SyncOk(w)
    requires Do(w, s).history != [] && (Live(w).fin && !Live(Do(w, s)).fin ==> s.PatchRemove?)
    ensures SyncOk(Do(w, s))
  {
  }

  lemma StepKeepsSyncOk(w: World, s: Step)
    requires HistoryOk(w) && SyncOk(w) && Enabled(w, s) && s != Begin
    ensures HistoryOk(Do(w, s)) && SyncOk(Do(w, s))
  {
    StepKeepsHistoryOk(w, s);
    assert WellFormed(Live(w));
    hide Do, Chain, Enabled;
    if Outside(s) {
      OutsideStepKeepsWorker(w, s);
    } else {
      if Live(w).fin && !Live(Do(w, s)).fin {
        OnlyRemovalClears(w, s);
      }
      WorkerStepKeepsSyncOk(w, s);
    }
  }

  lemma {:induction false} SyncStaysSafe(w: World, steps: seq<Step>, w': World)
    requires HistoryOk(w) && CleanupOk(w) && SyncOk(w) && Safe(w)
    requires Begin !in steps && Run(w, steps, w', false)
    ensures w'.history != [] && Safe(w')
    decreases |steps|
  {
    if steps != [] {
      StepKeepsSyncOk(w, steps[0]);
      StepKeepsCleanupOk(w, steps[0]);
      StepKeepsSafe(w, steps[0]);
      SyncStaysSafe(Do(w, steps[0]), steps[1..], w');
    }
  }

  lemma FastPathIsTaken(w: World) returns (steps: seq<Step>, w': World)
    requires HistoryOk(w) && w.phase == Idle && w.cached.present && Misled(w)
    ensures SyncReaches(w, steps, w') && w'.phase == Applying && !Live(w').fin
  {
    var w1 := Do(w, Begin);
    w' := w1;
    steps := [];
    assert Run(w1, steps, w', false);
    hide Chain, Run;
    steps, w' := Then(w1, steps, w', TrustCopyForAdd);
    steps, w' := Then(w1, steps, w', Branch);
  }

  lemma FastPathApplies(w: World) returns (steps: seq<Step>, w': World)
    requires HistoryOk(w) && w.phase == Idle && w.cached.present && Misled(w)
    ensures SyncReaches(w, steps, w') && !Safe(w')
  {
    steps, w' := FastPathIsTaken(w);
    hide Chain, Run, OwnsCovered;
    steps, w' := Then(Do(w, Begin), steps, w', ApplyObject(MANAGER_CONFIG));
    OwnsManagerConfig(w');
  }

  lemma OwnsManagerConfig(w: World)
    requires MANAGER_CONFIG in w.objs && w.objs[MANAGER_CONFIG] == Operator
    ensures OwnsCovered(w)
  {
    assert InGroup(6, MANAGER_CONFIG);
    assert Covered(MANAGER_CONFIG);
  }

  lemma Then(w: World, steps: seq<Step>, m: World, s: Step) returns (all: seq<Step>, next: World)
    requires w.history != [] && m.history != [] && Run(w, steps, m, false) && Enabled(m, s)
    ensures all == steps + [s] && next == Do(m, s) && next.history != [] && Run(w, all, next, false)
    ensures Begin !in steps && s != Begin ==> Begin !in all
  {
    RunExtend(w, steps, m, s);
    DoKeepsHistory(m, s);
    all, next := steps + [s], Do(m, s);
  }

  /** From any safe state between syncs, a sync can break the promise if and only if the
      informer's copy shows the finalizer and no deletion mark while the server's CR has no
      finalizer: the fast path of updateFinalizer then skips the call that would restore it. */
  lemma SyncCanBreakIff(w: World)
    requires HistoryOk(w) && w.phase == Idle && CleanupOk(w) && Safe(w) && w.cached.present
    ensures (exists steps, w' :: SyncReaches(w, steps, w') && !Safe(w'))
       <==> Misled(w)
  {
    if Misled(w) {
      var steps, w' := FastPathApplies(w);
    } else {
      StepKeepsCleanupOk(w, Begin);
      forall steps, w' | SyncReaches(w, steps, w') ensures Safe(w') {
        SyncStaysSafe(Do(w, Begin), steps, w');
      }
    }
  }

  // ---- Whole runs, exactly ----

  /** No sync of the run begins on a copy that misleads it. */
  ghost predicate NeverMisled(w: World, steps: seq<Step>)
    requires w.history != []
    decreases |steps|
  {
    steps != [] ==>
      && Enabled(w, steps[0])
      && (steps[0] == Begin ==> !Misled(w))
      && (DoKeepsHistory(w, steps[0]); NeverMisled(Do(w, steps[0]), steps[1..]))
  }

  lemma StepKeepsSyncSafe(w: World, s: Step)
    requires HistoryOk(w) && CleanupOk(w) && SyncOk(w) && Safe(w) && Enabled(w, s)
    requires s == Begin ==> !Misled(w)
    ensures HistoryOk(Do(w, s)) && CleanupOk(Do(w, s)) && SyncOk(Do(w, s)) && Safe(Do(w, s))
  {
    StepKeepsHistoryOk(w, s);
    StepKeepsCleanupOk(w, s);
    StepKeepsSafe(w, s);
    if s != Begin {
      StepKeepsSyncOk(w, s);
    }
  }

  lemma {:induction false} RunStaysSafe(w: World, steps: seq<Step>, w': World)
    requires HistoryOk(w) && CleanupOk(w) && SyncOk(w) && Safe(w)
    requires Run(w, steps, w', false) && NeverMisled(w, steps)
    ensures w'.history != [] && Safe(w')
    decreases |steps|
  {
    if steps != [] {
      StepKeepsSyncSafe(w, steps[0]);
      RunStaysSafe(Do(w, steps[0]), steps[1..], w');
    }
  }

  /** Safety: users creating and deleting the CR, an informer that lags, and syncs that fail at any call never
      leave covered objects without the finalizer, as long as no sync begins on a misleading copy. */
  lemma FinalizerGuardsCoveredObjects(w: World, steps: seq<Step>, w': World)
    requires Init(w) && Run(w, steps, w', false) && NeverMisled(w, steps)
    ensures w'.history != [] && Safe(w')
  {
    RunStaysSafe(w, steps, w');
  }

  lemma {:induction false} RunConcat(w: World, first: seq<Step>, m: World, second: seq<Step>, w': World)
    requires w.history != [] && m.history != [] && Run(w, first, m, false) && Run(m, second, w', false)
    ensures Run(w, first + second, w', false)
    decreases |first|
  {
    if first == [] {
      assert first + second == second;
    } else {
      var all := first + second;
      assert all[0] == first[0] && all[1..] == first[1..] + second;
      DoKeepsHistory(w, first[0]);
      RunConcat(Do(w, first[0]), first[1..], m, second, w');
    }
  }

  /** And the condition is exact: wherever a run gets to a misled begin, it can go on to break the promise
      within that very sync. */
  lemma MisledBeginCanBreak(w: World, steps: seq<Step>, m: World) returns (more: seq<Step>, w': World)
    requires Init(w) && Run(w, steps, m, false)
    requires m.history != [] && Enabled(m, Begin) && Misled(m)
    ensures Begin !in more && Run(w, steps + [Begin] + more, w', false) && w'.history != [] && !Safe(w')
  {
    RunKeepsCleanupOk(w, steps, m);
    more, w' := FastPathApplies(m);
    RunExtend(w, steps, m, Begin);
    DoKeepsHistory(m, Begin);
    RunConcat(w, steps + [Begin], Do(m, Begin), more, w');
  }

  lemma {:induction false} GuardedIsNeverMisled(w: World, steps: seq<Step>, w': World)
    requires Inv(w) && Run(w, steps, w', true)
    ensures Run(w, steps, w', false) && NeverMisled(w, steps)
    decreases |steps|
  {
    if steps != [] {
      StepKeepsInv(w, steps[0]);
      assert Visible(w, w.cached);
      GuardedIsNeverMisled(Do(w, steps[0]), steps[1..], w');
    }
  }

  /** In particular no copy ever misleads a sync, and the promise holds, in a run whose finalizer removals all
      hit the incarnation of the CR the sync had read. */
  lemma GuardedRunsAreSafe(w: World, steps: seq<Step>, w': World)
    requires Init(w) && Run(w, steps, w', true)
    ensures w'.history != [] && Safe(w') && Inv(w') && NeverMisled(w, steps)
  {
    GuardedIsNeverMisled(w, steps, w');
    FinalizerGuardsCoveredObjects(w, steps, w');
    RunKeepsInv(w, steps, w');
  }
}
