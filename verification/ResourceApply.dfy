/** Applying an object (get, merge, write back) and the cached form of it.

    One kind, namespace and name is modelled at a time. The cache entry stores the required object
    itself where the code stores a hash of it, which is to take the hash as collision free. */
module ResourceApply {
  import opened Options
  import opened MetadataMerge

  datatype Obj<S> = Obj(meta: Meta, spec: S, version: nat)

  /** What a held object answers before its spec is overwritten. Broken is a nil dereference. */
  datatype Verdict = NotHeld | Held | Broken

  type Holder<!S> = (Obj<S>, Obj<S>) -> Verdict

  /** Flow schemas and network policies are never held. */
  function NeverHeld<S>(cur: Obj<S>, want: Obj<S>): Verdict {
    NotHeld
  }

  datatype Fault = NoFault | GetFails | WriteFails

  datatype Decision<S> =
    | Keep(current: Obj<S>)
    | Write(meta: Meta, spec: S, creates: bool)
    | Crash

  function Decide<S(==)>(cur: Option<Obj<S>>, want: Obj<S>, ord: Orders, hold: Holder<S>): Decision<S>
    requires OrdersOf(ord, want.meta)
  {
    if cur.None? then Write(CleanMeta(want.meta), want.spec, true)
    else if !ModifiesMeta(cur.value.meta, want.meta, ord) && cur.value.spec == want.spec then Keep(cur.value)
    else match hold(cur.value, want)
      case Broken => Crash
      case Held => Keep(cur.value)
      case NotHeld => Write(MergedMeta(cur.value.meta, want.meta, ord), want.spec, false)
  }

  // ---- Server, lister and cache ----

  datatype Cached<S> = Cached(want: Obj<S>, version: nat)

  datatype World<S> = World(
    live: Option<Obj<S>>,        // on the server
    past: map<nat, Obj<S>>,      // every object there ever was, by resource version
    next: nat,                   // the next resource version
    cache: Option<Cached<S>>)

  datatype Outcome<S> = Returned(obj: Obj<S>, diff: bool) | Failed | Panicked

  function Store<S>(w: World<S>, meta: Meta, spec: S): World<S> {
    var o := Obj(meta, spec, w.next);
    w.(live := Some(o), past := w.past[w.next := o], next := w.next + 1)
  }

  function PlainApply<S(==)>(w: World<S>, want: Obj<S>, ord: Orders, hold: Holder<S>, fault: Fault): (World<S>, Outcome<S>)
    requires OrdersOf(ord, want.meta)
  {
    if fault == GetFails then (w, Failed)
    else match Decide(w.live, want, ord, hold)
      case Keep(o) => (w, Returned(o, false))
      case Crash => (w, Panicked)
      case Write(meta, spec, creates) =>
        if fault == WriteFails then (w, Failed)
        else (Store(w, meta, spec), Returned(Obj(meta, spec, w.next), !creates))
  }

  /** SafeToSkipApply: this very object was required last time, and the lister's copy still has
      the version that apply had left. */
  predicate SafeToSkip<S(==)>(w: World<S>, want: Obj<S>, seen: Option<Obj<S>>) {
    && seen.Some? && w.cache.Some?
    && w.cache.value == Cached(want, seen.value.version)
  }

  function CachedApply<S(==)>(w: World<S>, want: Obj<S>, seen: Option<Obj<S>>, ord: Orders, hold: Holder<S>, fault: Fault):
    (World<S>, Outcome<S>)
    requires OrdersOf(ord, want.meta)
  {
    if SafeToSkip(w, want, seen) then (w, Returned(seen.value, false))
    else
      var (after, r) := PlainApply(w, want, ord, hold, fault);
      (if r.Returned? then after.(cache := Some(Cached(want, r.obj.version))) else after, r)
  }

  class Client<S(==)> {
    var live: Option<Obj<S>>
    ghost var past: map<nat, Obj<S>>
    var next: nat
    var cache: Option<Cached<S>>

    constructor (live: Option<Obj<S>>, ghost past: map<nat, Obj<S>>, next: nat)
      ensures View() == World(live, past, next, None)
    {
      this.live, this.past, this.next, cache := live, past, next, None;
    }

    ghost function View(): World<S>
      reads this
    {
      World(live, past, next, cache)
    }

    method Write(meta: Meta, spec: S) returns (o: Obj<S>)
      modifies this
      ensures View() == Store(old(View()), meta, spec) && o == Obj(meta, spec, old(next))
    {
      o := Obj(meta, spec, next);
      live, past, next := Some(o), past[next := o], next + 1;
    }

    method Apply(want: Obj<S>, ord: Orders, hold: Holder<S>, fault: Fault) returns (r: Outcome<S>)
      requires OrdersOf(ord, want.meta)
      modifies this
      ensures (View(), r) == PlainApply(old(View()), want, ord, hold, fault)
    {
      if fault == GetFails {
        return Failed;
      }
      if live.None? {
        if fault == WriteFails {
          return Failed;
        }
        var created := Write(CleanMeta(want.meta), want.spec);
        return Returned(created, false);
      }
      var current := live.value;
      var copy := current;
      var meta, diff := EnsureObjectMeta(copy.meta, want.meta, ord);
      copy := copy.(meta := meta);
      if !diff && current.spec == want.spec {
        return Returned(current, false);
      }
      match hold(current, want)
      case Broken => return Panicked;
      case Held => return Returned(current, false);
      case NotHeld =>
      copy := copy.(spec := want.spec);
      if fault == WriteFails {
        return Failed;
      }
      var updated := Write(copy.meta, copy.spec);
      return Returned(updated, true);
    }

    method ApplyWithCache(want: Obj<S>, seen: Option<Obj<S>>, ord: Orders, hold: Holder<S>, fault: Fault)
      returns (r: Outcome<S>)
      requires OrdersOf(ord, want.meta)
      modifies this
      ensures (View(), r) == CachedApply(old(View()), want, seen, ord, hold, fault)
    {
      if seen.Some? && cache.Some? && cache.value == Cached(want, seen.value.version) {
        return Returned(seen.value, false);
      }
      r := Apply(want, ord, hold, fault);
      if r.Returned? {
        cache := Some(Cached(want, r.obj.version));
      }
    }
  }

  // ---- What a caller is told ----

  /** A call that fails or panics has changed nothing. One that returns gives the object the server now has, and
      `diff` says that it overwrote one: a creation and an object left alone both answer false. */
  lemma OutcomeTellsEffect<S>(w: World<S>, want: Obj<S>, ord: Orders, hold: Holder<S>, fault: Fault)
    requires OrdersOf(ord, want.meta)
    ensures var (after, r) := PlainApply(w, want, ord, hold, fault);
      && (!r.Returned? ==> after == w)
      && (r.Returned? ==> after.live == Some(r.obj) && (r.diff <==> w.live.Some? && after != w))
      && (fault == GetFails ==> r.Failed?)
      && (fault == NoFault ==> !r.Failed?)
      && (fault == WriteFails ==> after == w && (r.Failed? <==> PlainApply(w, want, ord, hold, NoFault).0 != w))
  {
    assert Store(w, CleanMeta(want.meta), want.spec).next != w.next;
  }

  // ---- One write reaches a fixpoint ----

  /** No call for this want, in any order, would write over this object or crash on it. */
  ghost predicate Fixpoint<S(!new)>(o: Obj<S>, want: Obj<S>, hold: Holder<S>) {
    forall ord :: OrdersOf(ord, want.meta) ==> Decide(Some(o), want, ord, hold) == Keep(o)
  }

  lemma SettledIsFixpoint<S(!new)>(o: Obj<S>, want: Obj<S>, hold: Holder<S>)
    requires MetaSettled(o.meta, want.meta) && o.spec == want.spec
    ensures Fixpoint(o, want, hold)
  {
    hide MetaSettled, ModifiesMeta, MergedMeta, CleanMeta;
    forall ord | OrdersOf(ord, want.meta) ensures Decide(Some(o), want, ord, hold) == Keep(o) {
      MetaUnmodifiedIffSettled(o.meta, want.meta, ord);
    }
  }

  lemma HeldIsFixpoint<S(!new)>(o: Obj<S>, want: Obj<S>, hold: Holder<S>)
    requires hold(o, want) == Held
    ensures Fixpoint(o, want, hold)
  {
  }

  lemma WrittenIsSettled(cur: Option<Meta>, want: Meta, ord: Orders)
    requires OrdersOf(ord, want) && StableMeta(want)
    ensures MetaSettled(if cur.None? then CleanMeta(want) else MergedMeta(cur.value, want, ord), want)
  {
    CleanMetaIsSettled(want);
    if cur.Some? {
      MetaMergeSettles(cur.value, want, ord);
    }
  }

  /** Whatever the object was (absent, drifted, held), what a call returns is a fixpoint of it. */
  lemma ReturnedIsFixpoint<S(!new)>(w: World<S>, want: Obj<S>, ord: Orders, hold: Holder<S>, fault: Fault)
    requires OrdersOf(ord, want.meta) && StableMeta(want.meta)
    requires PlainApply(w, want, ord, hold, fault).1.Returned?
    ensures Fixpoint(PlainApply(w, want, ord, hold, fault).1.obj, want, hold)
  {
    hide MetaSettled, MergedMeta, CleanMeta, StableMeta, ModifiesMeta, Fixpoint;
    var o := PlainApply(w, want, ord, hold, fault).1.obj;
    WrittenIsSettled(if w.live.None? then None else Some(w.live.value.meta), want.meta, ord);
    if w.live.Some? {
      MetaUnmodifiedIffSettled(w.live.value.meta, want.meta, ord);
    }
    if MetaSettled(o.meta, want.meta) && o.spec == want.spec {
      SettledIsFixpoint(o, want, hold);
    } else {
      HeldIsFixpoint(o, want, hold);
    }
  }

  /** How often a series of calls with the same want writes, with nobody else around. */
  function Writes<S(==)>(w: World<S>, want: Obj<S>, orders: seq<Orders>, hold: Holder<S>): nat
    requires forall ord :: ord in orders ==> OrdersOf(ord, want.meta)
    decreases |orders|
  {
    if orders == [] then 0
    else
      assert orders[0] in orders;
      var (after, r) := PlainApply(w, want, orders[0], hold, NoFault);
      if r.Panicked? then 0
      else (if after == w then 0 else 1) + Writes(after, want, orders[1..], hold)
  }

  lemma {:induction false} FixpointIsNotWritten<S(!new)>(w: World<S>, want: Obj<S>, orders: seq<Orders>, hold: Holder<S>)
    requires forall ord :: ord in orders ==> OrdersOf(ord, want.meta)
    requires w.live.Some? && Fixpoint(w.live.value, want, hold)
    ensures Writes(w, want, orders, hold) == 0
    decreases |orders|
  {
    if orders != [] {
      assert orders[0] in orders;
      FixpointIsNotWritten(w, want, orders[1..], hold);
    }
  }

  /** Any number of calls with the same want writes at most once, and it can only be the first. */
  lemma AtMostOneWrite<S(!new)>(w: World<S>, want: Obj<S>, orders: seq<Orders>, hold: Holder<S>)
    requires StableMeta(want.meta)
    requires forall ord :: ord in orders ==> OrdersOf(ord, want.meta)
    ensures Writes(w, want, orders, hold) <= 1
  {
    if orders != [] {
      assert orders[0] in orders;
      var (after, r) := PlainApply(w, want, orders[0], hold, NoFault);
      if r.Returned? {
        ReturnedIsFixpoint(w, want, orders[0], hold, NoFault);
        FixpointIsNotWritten(after, want, orders[1..], hold);
      }
    }
  }

  /** With nothing to hold a write back, one write is enough from every starting state, in every order of the
      metadata, if and only if the wanted metadata is stable. */
  lemma AtMostOneWriteIff<S(!new)>(want: Obj<S>)
    ensures (forall w, orders :: (forall ord :: ord in orders ==> OrdersOf(ord, want.meta)) ==>
              Writes(w, want, orders, NeverHeld) <= 1)
       <==> StableMeta(want.meta)
  {
    if StableMeta(want.meta) {
      forall w, orders | forall ord :: ord in orders ==> OrdersOf(ord, want.meta)
        ensures Writes(w, want, orders, NeverHeld) <= 1
      {
        AtMostOneWrite(w, want, orders, NeverHeld);
      }
    } else {
      var w, orders := UnstableWantIsWrittenTwice(want);
    }
  }

  lemma UnstableWantIsWrittenTwice<S(!new)>(want: Obj<S>) returns (w: World<S>, orders: seq<Orders>)
    requires !StableMeta(want.meta)
    ensures (forall ord :: ord in orders ==> OrdersOf(ord, want.meta)) && Writes(w, want, orders, NeverHeld) >= 2
  {
    var existing, ord := UnstableMetaNeverSettles(want.meta);
    var live := Obj(existing, want.spec, 0);
    w := World(Some(live), map[0 := live], 1, None);
    orders := [ord, ord];
    MetaUnmodifiedIffSettled(existing, want.meta, ord);
    SettledMetaStays(existing, want.meta, ord);
    var merged := MergedMeta(existing, want.meta, ord);
    MetaUnmodifiedIffSettled(merged, want.meta, ord);
    var (after, r) := PlainApply(w, want, ord, NeverHeld, NoFault);
    assert after == Store(w, merged, want.spec) && after != w;
    var (later, _) := PlainApply(after, want, ord, NeverHeld, NoFault);
    assert later != after;
    assert orders[1..] == [ord];
    assert Writes(after, want, [ord], NeverHeld) >= 1;
  }

  lemma SettledMetaStays(existing: Meta, required: Meta, ord: Orders)
    requires OrdersOf(ord, required)
    ensures !ModifiesMeta(existing, required, ord) ==> MergedMeta(existing, required, ord) == existing
  {
    UnmodifiedIffSettled(existing.labels, ord.labels, required.labels);
    UnmodifiedIffSettled(existing.annotations, ord.annotations, required.annotations);
    OwnersUnmodifiedIffSettled(existing.owners, required.owners);
  }

  /** Flow schemas and network policies: whoever changed them, after an apply they are as wanted. */
  lemma UnheldIsAsWanted<S(!new)>(w: World<S>, want: Obj<S>, ord: Orders, fault: Fault)
    requires OrdersOf(ord, want.meta) && StableMeta(want.meta)
    requires PlainApply(w, want, ord, NeverHeld, fault).1.Returned?
    ensures var o := PlainApply(w, want, ord, NeverHeld, fault).1.obj;
      o.spec == want.spec && MetaSettled(o.meta, want.meta)
  {
    CleanMetaIsSettled(want.meta);
    if w.live.Some? {
      MetaMergeSettles(w.live.value.meta, want.meta, ord);
      MetaUnmodifiedIffSettled(w.live.value.meta, want.meta, ord);
    }
  }

  /** A want that both sets and removes a label or annotation never comes to rest. */
  lemma ConflictIsWrittenEveryTime<S(!new)>(cur: Obj<S>, want: Obj<S>, ord: Orders, hold: Holder<S>)
    requires OrdersOf(ord, want.meta) && hold(cur, want) == NotHeld
    requires Conflict(want.meta.labels) || Conflict(want.meta.annotations)
    ensures Decide(Some(cur), want, ord, hold).Write?
  {
    MetaUnmodifiedIffSettled(cur.meta, want.meta, ord);
    MergeSettlesIff(want.meta.labels);
    MergeSettlesIff(want.meta.annotations);
  }

  // ---- Cached apply refines plain apply ----

  datatype Event<S> =
    | OutsideWrite(meta: Meta, spec: S)
    | OutsideDelete
    | Applied(want: Obj<S>, seen: Option<Obj<S>>, ord: Orders, fault: Fault)

  /** The lister returns some version the object once had, or nothing. */
  predicate Listable<S(==)>(w: World<S>, seen: Option<Obj<S>>) {
    seen.Some? ==> seen.value.version in w.past && w.past[seen.value.version] == seen.value
  }

  ghost predicate Possible<S>(w: World<S>, e: Event<S>) {
    e.Applied? ==> OrdersOf(e.ord, e.want.meta) && Listable(w, e.seen)
  }

  function Do<S(==)>(w: World<S>, e: Event<S>, hold: Holder<S>): World<S>
    requires Possible(w, e)
  {
    match e
    case OutsideWrite(meta, spec) => Store(w, meta, spec)
    case OutsideDelete => w.(live := None)
    case Applied(want, seen, ord, fault) => CachedApply(w, want, seen, ord, hold, fault).0
  }

  ghost predicate Run<S(!new)>(w: World<S>, events: seq<Event<S>>, hold: Holder<S>, w': World<S>)
    decreases |events|
  {
    if events == [] then w == w'
    else Possible(w, events[0]) && Run(Do(w, events[0], hold), events[1..], hold, w')
  }

  ghost predicate Start<S>(w: World<S>) {
    w == World(None, map[], 0, None)
  }

  ghost predicate Inv<S(!new)>(w: World<S>, hold: Holder<S>) {
    && (forall v :: v in w.past ==> v < w.next && w.past[v].version == v)
    && (w.live.Some? ==> Listable(w, w.live))
    && (w.cache.Some? ==>
          && w.cache.value.version in w.past
          && (StableMeta(w.cache.value.want.meta) ==>
                Fixpoint(w.past[w.cache.value.version], w.cache.value.want, hold)))
  }

  lemma StepKeepsInv<S(!new)>(w: World<S>, e: Event<S>, hold: Holder<S>)
    requires Inv(w, hold) && Possible(w, e)
    ensures Inv(Do(w, e, hold), hold)
  {
    if e.Applied? && !SafeToSkip(w, e.want, e.seen) {
      var (after, r) := PlainApply(w, e.want, e.ord, hold, e.fault);
      if r.Returned? {
        if StableMeta(e.want.meta) {
          ReturnedIsFixpoint(w, e.want, e.ord, hold, e.fault);
        }
        assert after.past[r.obj.version] == r.obj;
      }
    }
  }

  lemma {:induction false} RunKeepsInv<S(!new)>(w: World<S>, events: seq<Event<S>>, hold: Holder<S>, w': World<S>)
    requires Inv(w, hold) && Run(w, events, hold, w')
    ensures Inv(w', hold)
    decreases |events|
  {
    if events != [] {
      StepKeepsInv(w, events[0], hold);
      RunKeepsInv(Do(w, events[0], hold), events[1..], hold, w');
    }
  }

  /** In every run of cached applies (of whatever wants), outside edits and stale listers: when the cache says
      skip for a stable want, the listed object is a fixpoint, so plain apply on it would return it and write
      nothing. */
  lemma SkippedIsFixpoint<S(!new)>(
      w: World<S>, events: seq<Event<S>>, hold: Holder<S>, w': World<S>, want: Obj<S>, seen: Option<Obj<S>>, ord: Orders)
    requires Start(w) && Run(w, events, hold, w')
    requires Listable(w', seen) && SafeToSkip(w', want, seen) && OrdersOf(ord, want.meta)
    requires StableMeta(want.meta)
    ensures Decide(seen, want, ord, hold) == Keep(seen.value)
  {
    RunKeepsInv(w, events, hold, w');
  }

  /** The point of the cache: once a cached apply has returned and the lister has caught up, the same apply returns
      that object again, and no failure of the API can keep it from doing so, since it calls nothing. */
  lemma SecondApplyIsSkipped<S(!new)>(
      w: World<S>, want: Obj<S>, seen: Option<Obj<S>>, ord: Orders, next: Orders, hold: Holder<S>, fault: Fault, later: Fault)
    requires OrdersOf(ord, want.meta) && OrdersOf(next, want.meta)
    requires CachedApply(w, want, seen, ord, hold, fault).1.Returned?
    ensures var (after, r) := CachedApply(w, want, seen, ord, hold, fault);
      CachedApply(after, want, Some(r.obj), next, hold, later) == (after, Returned(r.obj, false))
  {
  }

  /** Another want, or another version in the lister, is never skipped. */
  lemma ChangeIsNotSkipped<S(!new)>(
      w: World<S>, want: Obj<S>, seen: Option<Obj<S>>, ord: Orders, hold: Holder<S>, fault: Fault,
      other: Obj<S>, listed: Option<Obj<S>>)
    requires OrdersOf(ord, want.meta) && CachedApply(w, want, seen, ord, hold, fault).1.Returned?
    requires other != want || listed.None? || listed.value.version != CachedApply(w, want, seen, ord, hold, fault).1.obj.version
    ensures !SafeToSkip(CachedApply(w, want, seen, ord, hold, fault).0, other, listed)
  {
  }

  /** With an up-to-date lister the cached form and the plain one end in the same server state
      and return the same. */
  lemma CachedRefinesPlain<S(!new)>(
      w: World<S>, events: seq<Event<S>>, hold: Holder<S>, w': World<S>, want: Obj<S>, ord: Orders)
    requires Start(w) && Run(w, events, hold, w') && OrdersOf(ord, want.meta)
    requires SafeToSkip(w', want, w'.live) ==> StableMeta(want.meta)
    ensures var cached, plain := CachedApply(w', want, w'.live, ord, hold, NoFault), PlainApply(w', want, ord, hold, NoFault);
      cached.1 == plain.1 && cached.0.(cache := w'.cache) == plain.0
  {
    RunKeepsInv(w, events, hold, w');
  }

  /** A want that is not stable can be skipped although plain apply would write: one outside write and one
      cached apply are enough to get there. */
  lemma UnstableWantIsSkipped<S(!new)>(want: Obj<S>)
    returns (w: World<S>, events: seq<Event<S>>, w': World<S>, ord: Orders)
    requires !StableMeta(want.meta)
    ensures Start(w) && Run(w, events, NeverHeld, w') && OrdersOf(ord, want.meta)
    ensures w'.live.Some? && Listable(w', w'.live) && SafeToSkip(w', want, w'.live)
    ensures Decide(w'.live, want, ord, NeverHeld).Write?
  {
    var existing;
    existing, ord := UnstableMetaNeverSettles(want.meta);
    w := World(None, map[], 0, None);
    var write, apply := OutsideWrite(existing, want.spec), Applied(want, None, ord, NoFault);
    events := [write, apply];
    var mid := Do(w, write, NeverHeld);
    MetaUnmodifiedIffSettled(existing, want.meta, ord);
    SettledMetaStays(existing, want.meta, ord);
    var merged := MergedMeta(existing, want.meta, ord);
    MetaUnmodifiedIffSettled(merged, want.meta, ord);
    w' := Do(mid, apply, NeverHeld);
    assert w'.live == Some(Obj(merged, want.spec, 1));
    assert events[1..] == [apply] && [apply][1..] == [];
    assert Run(w', [], NeverHeld, w');
    assert Run(mid, [apply], NeverHeld, w');
  }

  /** Some run leads to a world whose cache says skip for this want and this listed object. */
  ghost predicate Skips<S(!new)>(
      w: World<S>, events: seq<Event<S>>, w': World<S>, want: Obj<S>, seen: Option<Obj<S>>, ord: Orders)
  {
    && Start(w) && Run(w, events, NeverHeld, w')
    && Listable(w', seen) && SafeToSkip(w', want, seen) && OrdersOf(ord, want.meta)
  }

  /** So a skip is right in every run if and only if the wanted metadata is stable. */
  lemma SkippedIsFixpointIff<S(!new)>(want: Obj<S>)
    ensures (forall w, events, w', seen, ord :: Skips(w, events, w', want, seen, ord) ==>
              Decide(seen, want, ord, NeverHeld) == Keep(seen.value))
       <==> StableMeta(want.meta)
  {
    if StableMeta(want.meta) {
      forall w, events, w', seen, ord | Skips(w, events, w', want, seen, ord)
        ensures Decide(seen, want, ord, NeverHeld) == Keep(seen.value)
      {
        SkippedIsFixpoint(w, events, NeverHeld, w', want, seen, ord);
      }
    } else {
      var w, events, w', ord := UnstableWantIsSkipped(want);
      assert Skips(w, events, w', want, w'.live, ord);
    }
  }

  // ---- PriorityLevelConfiguration ----

  const HOLD_ANNOTATION := "kueue.openshift.io/allow-nominal-concurrency-shares-update"

  // `shares` is None where the spec has no `limited` block; `rest` is all the other settings.
  datatype PrioritySpec = PrioritySpec(shares: Option<int>, rest: string)

  predicate Annotated(o: Obj<PrioritySpec>) {
    HOLD_ANNOTATION in o.meta.annotations && o.meta.annotations[HOLD_ANNOTATION] == "true"
  }

  /** Free to apply: no hold; under the annotation, shares of 0 or in [want, 5] hold. */
  function HeldByAnnotation(cur: Obj<PrioritySpec>, want: Obj<PrioritySpec>): Verdict {
    if !Annotated(cur) then NotHeld
    else if cur.spec.shares.None? || want.spec.shares.None? then Broken
    else
      var n := cur.spec.shares.value;
      if (n >= want.spec.shares.value && n <= 5) || n == 0 then Held else NotHeld
  }

  /** ApplyPriorityLevelConfiguration. */
  function ApplyPriority(w: World<PrioritySpec>, want: Obj<PrioritySpec>, ord: Orders, fault: Fault):
    (World<PrioritySpec>, Outcome<PrioritySpec>)
    requires OrdersOf(ord, want.meta)
  {
    PlainApply(w, want, ord, HeldByAnnotation, fault)
  }

  /** The live object carries the annotation that lets users change the shares. */
  predicate LetsUsersChange(w: World<PrioritySpec>) {
    && w.live.Some?
    && "kueue.openshift.io/allow-nominal-concurrency-shares-update" in w.live.value.meta.annotations
    && w.live.value.meta.annotations["kueue.openshift.io/allow-nominal-concurrency-shares-update"] == "true"
  }

  /** A user's shares are kept: under the annotation, n shares that are 0 or lie between the wanted s and 5 are never
      written over, whatever else has drifted, in any order of the metadata. */
  lemma UsersSharesAreKept(w: World<PrioritySpec>, want: Obj<PrioritySpec>, ord: Orders, n: int, s: int)
    requires OrdersOf(ord, want.meta) && LetsUsersChange(w)
    requires w.live.value.spec.shares == Some(n) && want.spec.shares == Some(s)
    requires n == 0 || s <= n <= 5
    ensures ApplyPriority(w, want, ord, NoFault) == (w, Returned(w.live.value, false))
  {
    assert Annotated(w.live.value);
  }

  /** And only those: every other object that differs from the want gets the wanted spec and, if the wanted metadata is
      stable, metadata with nothing left to do. */
  lemma OtherDriftIsRepaired(w: World<PrioritySpec>, want: Obj<PrioritySpec>, ord: Orders)
    requires OrdersOf(ord, want.meta) && w.live.Some?
    requires w.live.value.spec != want.spec || !MetaSettled(w.live.value.meta, want.meta)
    requires LetsUsersChange(w) ==>
      && w.live.value.spec.shares.Some? && want.spec.shares.Some?
      && var n, s := w.live.value.spec.shares.value, want.spec.shares.value;
         n != 0 && (n < s || n > 5)
    ensures var (after, r) := ApplyPriority(w, want, ord, NoFault);
      && r == Returned(Obj(MergedMeta(w.live.value.meta, want.meta, ord), want.spec, w.next), true)
      && after.live == Some(r.obj)
      && (StableMeta(want.meta) ==> MetaSettled(r.obj.meta, want.meta))
  {
    assert Annotated(w.live.value) <==> LetsUsersChange(w);
    MetaUnmodifiedIffSettled(w.live.value.meta, want.meta, ord);
    if StableMeta(want.meta) {
      MetaMergeSettles(w.live.value.meta, want.meta, ord);
    }
  }

  /** The object has the wanted shares, or it is under the annotation with shares that are 0 or between the wanted
      ones and 5. */
  predicate SharesOk(o: Obj<PrioritySpec>, want: Obj<PrioritySpec>) {
    || o.spec.shares == want.spec.shares
    || (&& Annotated(o) && o.spec.shares.Some? && want.spec.shares.Some?
        && (o.spec.shares.value == 0 || want.spec.shares.value <= o.spec.shares.value <= 5))
  }

  /** After every apply, whatever anybody did to the object before. */
  lemma SharesAfterApply(w: World<PrioritySpec>, want: Obj<PrioritySpec>, ord: Orders, fault: Fault)
    requires OrdersOf(ord, want.meta)
    requires ApplyPriority(w, want, ord, fault).1.Returned?
    ensures SharesOk(ApplyPriority(w, want, ord, fault).1.obj, want)
  {
  }

  ghost predicate CachedSharesOk(w: World<PrioritySpec>) {
    && Inv(w, HeldByAnnotation)
    && (w.cache.Some? ==> SharesOk(w.past[w.cache.value.version], w.cache.value.want))
  }

  lemma StepKeepsShares(w: World<PrioritySpec>, e: Event<PrioritySpec>)
    requires CachedSharesOk(w) && Possible(w, e)
    ensures CachedSharesOk(Do(w, e, HeldByAnnotation))
  {
    StepKeepsInv(w, e, HeldByAnnotation);
    if e.Applied? && !SafeToSkip(w, e.want, e.seen) {
      var (after, r) := PlainApply(w, e.want, e.ord, HeldByAnnotation, e.fault);
      if r.Returned? {
        SharesAfterApply(w, e.want, e.ord, e.fault);
        assert after.past[r.obj.version] == r.obj;
      }
    }
  }

  lemma {:induction false} RunKeepsShares(w: World<PrioritySpec>, events: seq<Event<PrioritySpec>>, w': World<PrioritySpec>)
    requires CachedSharesOk(w) && Run(w, events, HeldByAnnotation, w')
    ensures CachedSharesOk(w')
    decreases |events|
  {
    if events != [] {
      StepKeepsShares(w, events[0]);
      RunKeepsShares(Do(w, events[0], HeldByAnnotation), events[1..], w');
    }
  }

  /** The same for the cached form, in every run, of whatever wants: also what a skip returns obeys the rule. */
  lemma SharesAfterCachedApply(
      w: World<PrioritySpec>, events: seq<Event<PrioritySpec>>, w': World<PrioritySpec>,
      want: Obj<PrioritySpec>, seen: Option<Obj<PrioritySpec>>, ord: Orders, fault: Fault)
    requires Start(w) && Run(w, events, HeldByAnnotation, w')
    requires OrdersOf(ord, want.meta) && Listable(w', seen)
    requires CachedApply(w', want, seen, ord, HeldByAnnotation, fault).1.Returned?
    ensures SharesOk(CachedApply(w', want, seen, ord, HeldByAnnotation, fault).1.obj, want)
  {
    if SafeToSkip(w', want, seen) {
      RunKeepsShares(w, events, w');
    } else {
      SharesAfterApply(w', want, ord, fault);
    }
  }

  /** The call crashes on a nil pointer exactly for a drifted object under the annotation when it
      or the want has no shares. */
  lemma CrashesIff(w: World<PrioritySpec>, want: Obj<PrioritySpec>, ord: Orders)
    requires OrdersOf(ord, want.meta)
    ensures ApplyPriority(w, want, ord, NoFault).1.Panicked? <==>
            && w.live.Some? && Annotated(w.live.value)
            && !(MetaSettled(w.live.value.meta, want.meta) && w.live.value.spec == want.spec)
            && (w.live.value.spec.shares.None? || want.spec.shares.None?)
  {
    if w.live.Some? {
      MetaUnmodifiedIffSettled(w.live.value.meta, want.meta, ord);
    }
  }

  /** Such a crash: an annotated object without shares that has drifted from the want. */
  lemma CanCrash(want: Obj<PrioritySpec>, ord: Orders, rest: string) returns (w: World<PrioritySpec>)
    requires OrdersOf(ord, want.meta) && want.spec != PrioritySpec(None, rest)
    ensures ApplyPriority(w, want, ord, NoFault).1.Panicked?
  {
    var live := Obj(Meta(map[], map[HOLD_ANNOTATION := "true"], []), PrioritySpec(None, rest), 0);
    w := World(Some(live), map[0 := live], 1, None);
    assert Annotated(live);
  }
}
