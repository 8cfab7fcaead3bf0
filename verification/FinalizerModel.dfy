/** The finalizer protocol of TargetConfigReconciler.sync as a step system.

    One worker reconciles one custom resource (CR) against the API server, while users and
    controllers act between any two of its calls and the informer lags behind the server.
    Two details of the code decide the outcome and are modelled exactly: `updateFinalizer`
    trusts the copy it was handed before it asks the server, and it writes the patched object
    back through the pointer it was handed, which is the informer's own cached object. */
module FinalizerModel {
  import opened ClusterObjects

  /** One server state of the CR. Every creation gets a new uid. */
  datatype CR = CR(uid: nat, present: bool, fin: bool, deleting: bool, others: bool)

  function Gone(uid: nat): CR {
    CR(uid, false, false, true, false)
  }

  datatype Phase =
    | Idle
    | Begun                       // the cached copy was read; addFinalizer comes next
    | AddPatch                    // the server's copy lacks the finalizer; the patch is ready
    | Finalized                   // addFinalizer returned nil
    | Applying
    | Cleaning(group: nat, listed: bool, todo: set<ObjKey>, failed: bool)
    | Removing                    // all five cleanup steps returned nil
    | RemovePatch

  datatype World = World(
    history: seq<CR>,             // every server state of the CR, oldest first
    pos: nat,                     // the last event the informer has delivered
    cached: CR,                   // what the informer's indexer holds
    objs: map<ObjKey, Owner>,
    phase: Phase,
    local: CR,                    // sync's `*kueue`
    aliased: bool,                // `kueue` still points at the indexer's object
    stepsDone: nat,               // cleanup steps that returned nil in this sync
    applied: set<ObjKey>)         // objects applied in this sync

  datatype Step =
    // users, other controllers, the API server and the informer
    | CreateCR(others: bool)
    | DeleteCR
    | EditCR(others: bool)
    | Deliver(to: nat)
    | CreateObject(key: ObjKey)
    | DeleteObject(key: ObjKey)
    | Restart                     // of the operator, at any moment: the informer lists anew
    // the worker; Abort is any error return, and any normal return that needs no call
    | Begin
    | Abort
    | TrustCopyForAdd
    | GetForAdd
    | PatchAdd(others: bool, lost: bool)
    | Branch
    | ApplyObject(key: ObjKey)
    | ListGroup(ok: bool)
    | DeleteListed(key: ObjKey, ok: bool)
    | NextGroup
    | TrustCopyForRemove
    | GetForRemove
    | PatchRemove(others: bool, lost: bool)

  ghost predicate Init(w: World) {
    && w.history == [Gone(0)] && w.pos == 0 && w.cached == w.local == Gone(0)
    && (forall k :: k in w.objs ==> w.objs[k] == Foreign)
    && w.phase == Idle && !w.aliased && w.stepsDone == 0 && w.applied == {}
  }

  function Live(w: World): CR
    requires w.history != []
  {
    w.history[|w.history| - 1]
  }

  function Push(w: World, c: CR): World {
    w.(history := w.history + [c])
  }

  predicate Enabled(w: World, s: Step)
    requires w.history != []
  {
    var live := Live(w);
    match s
    case CreateCR(_) => !live.present
    case DeleteCR => live.present && !live.deleting
    case EditCR(_) => live.present
    case Deliver(to) => w.pos < to < |w.history|
    case CreateObject(k) => k !in w.objs
    case DeleteObject(k) => k in w.objs
    case Restart => true
    case Begin => w.phase == Idle && w.cached.present
    case Abort => w.phase != Idle
    case TrustCopyForAdd => w.phase == Begun && w.local.fin
    case GetForAdd => w.phase == Begun && !w.local.fin
    case PatchAdd(_, _) => w.phase == AddPatch
    case Branch => w.phase == Finalized
    case ApplyObject(_) => w.phase == Applying
    case ListGroup(_) => w.phase.Cleaning? && !w.phase.listed
    case DeleteListed(k, _) => w.phase.Cleaning? && k in w.phase.todo
    case NextGroup => w.phase.Cleaning? && w.phase.listed && w.phase.todo == {}
    case TrustCopyForRemove => w.phase == Removing && !w.local.fin
    case GetForRemove => w.phase == Removing && w.local.fin
    case PatchRemove(_, _) => w.phase == RemovePatch
  }

  /** A user's delete request: finalizers turn it into a mark. */
  function AfterDelete(live: CR): CR {
    if live.fin || live.others then live.(deleting := true) else Gone(live.uid)
  }

  /** An edit of other parties' finalizers; the last finalizer of a deleted CR takes it away. */
  function AfterEdit(live: CR, others: bool): CR {
    if live.deleting && !live.fin && !others then Gone(live.uid) else live.(others := others)
  }

  /** `*kueue = *patched`, which also rewrites the indexer's object while it is the same one. */
  function StorePatched(w: World, c: CR): World {
    w.(local := c, cached := if w.aliased then c else w.cached)
  }

  /** The add patch. It carries neither a uid nor a resource version; the API server refuses
      to give a finalizer to an object that is being deleted. */
  function AfterPatchAdd(w: World, others: bool, lost: bool): World
    requires w.history != []
  {
    var live := Live(w);
    if !live.present || live.deleting then w.(phase := Idle)
    else
      var c := live.(fin := true, others := others);
      if lost then Push(w, c).(phase := Idle)
      else StorePatched(Push(w, c), c).(phase := Finalized)
  }

  function AfterPatchRemove(w: World, others: bool, lost: bool): World
    requires w.history != []
  {
    var live := Live(w);
    if !live.present then w.(phase := Idle)
    else
      var c := live.(fin := false, others := others);
      var next := Push(w, if live.deleting && !others then Gone(live.uid) else c).(phase := Idle);
      if lost then next else StorePatched(next, c)
  }

  /** Leaves a group whose targets were all tried: an error ends the sync with the step. */
  function AfterGroup(w: World): World
    requires w.phase.Cleaning?
  {
    var g, failed := w.phase.group, w.phase.failed;
    if g + 1 < GROUPS && StepOf(g + 1) == StepOf(g) then
      w.(phase := Cleaning(g + 1, false, {}, failed))
    else if failed then w.(phase := Idle)
    else
      w.(phase := if g + 1 < GROUPS then Cleaning(g + 1, false, {}, false) else Removing,
         stepsDone := w.stepsDone + 1)
  }

  function Do(w: World, s: Step): World
    requires w.history != [] && Enabled(w, s)
  {
    var live := Live(w);
    match s
    case CreateCR(others) => Push(w, CR(live.uid + 1, true, false, false, others))
    case DeleteCR => Push(w, AfterDelete(live))
    case EditCR(others) => Push(w, AfterEdit(live, others))
    case Deliver(to) => w.(pos := to, cached := w.history[to], aliased := false)
    case CreateObject(k) => w.(objs := w.objs[k := Foreign])
    case DeleteObject(k) => w.(objs := w.objs - {k})
    case Restart => w.(pos := |w.history| - 1, cached := live, aliased := false, phase := Idle)
    case Begin => w.(phase := Begun, local := w.cached, aliased := true, stepsDone := 0, applied := {})
    case Abort => w.(phase := Idle)
    case TrustCopyForAdd => w.(phase := Finalized)
    case GetForAdd => w.(phase := if !live.present then Idle else if live.fin then Finalized else AddPatch)
    case PatchAdd(others, lost) => AfterPatchAdd(w, others, lost)
    case Branch => w.(phase := if w.local.deleting then Cleaning(0, false, {}, false) else Applying)
    case ApplyObject(k) => w.(objs := w.objs[k := Operator], applied := w.applied + {k})
    case ListGroup(ok) =>
      var g := w.phase.group;
      if g >= 6 && g < GROUPS then w.(phase := w.phase.(listed := true, todo := {NamedTarget(g)}))
      else if ok then w.(phase := w.phase.(listed := true, todo := set k | k in w.objs && InGroup(g, k)))
      else w.(phase := w.phase.(listed := true, failed := true))
    case DeleteListed(k, ok) =>
      var p := w.phase.(todo := w.phase.todo - {k});
      if ok && k in w.objs then w.(objs := w.objs - {k}, phase := p)
      else w.(phase := p.(failed := true))
    case NextGroup => AfterGroup(w)
    case TrustCopyForRemove => w.(phase := Idle)
    case GetForRemove => w.(phase := if live.present && live.fin then RemovePatch else Idle)
    case PatchRemove(others, lost) => AfterPatchRemove(w, others, lost)
  }

  lemma DoKeepsHistory(w: World, s: Step)
    requires w.history != [] && Enabled(w, s)
    ensures Do(w, s).history != [] && w.history <= Do(w, s).history
  {
  }

  /** A finalizer removal that hits another incarnation of the CR than the one the sync read. */
  predicate Misdirected(w: World, s: Step)
    requires w.history != []
  {
    s.PatchRemove? && Live(w).fin && Live(w).uid != w.local.uid
  }

  /** w' is reached from w by these steps; `guarded` runs have no misdirected removal. */
  ghost predicate Run(w: World, steps: seq<Step>, w': World, guarded: bool)
    requires w.history != []
    decreases |steps|
  {
    if steps == [] then w == w'
    else
      && Enabled(w, steps[0])
      && (guarded ==> !Misdirected(w, steps[0]))
      && (DoKeepsHistory(w, steps[0]); Run(Do(w, steps[0]), steps[1..], w', guarded))
  }

  lemma {:induction false} RunExtend(w: World, steps: seq<Step>, m: World, s: Step)
    requires w.history != [] && Run(w, steps, m, false)
    requires m.history != [] && Enabled(m, s)
    ensures Run(w, steps + [s], Do(m, s), false)
    decreases |steps|
  {
    var all := steps + [s];
    DoKeepsHistory(m, s);
    if steps == [] {
      assert all[1..] == [];
      assert Run(Do(m, s), [], Do(m, s), false);
    } else {
      DoKeepsHistory(w, steps[0]);
      RunExtend(Do(w, steps[0]), steps[1..], m, s);
      assert all[1..] == steps[1..] + [s];
    }
  }

  ghost predicate OwnsCovered(w: World) {
    exists k :: k in w.objs && w.objs[k] == Operator && Covered(k)
  }

  /** The promise of the finalizer: whatever the cleanup would delete is still guarded by it. */
  ghost predicate Safe(w: World)
    requires w.history != []
  {
    OwnsCovered(w) ==> Live(w).fin
  }
}
