/** The generated shared informer factory: one informer per type, each started at most once.

    Its lock makes every method one critical section (WaitForCacheSync takes a snapshot under the
    lock and reports later), so any interleaving of callers is a sequence of the steps below. */
module InformerFactory {
  import opened Options

  // `id` tells the objects that newFunc returned apart.
  datatype Informer = Informer(id: nat, resync: int, transformed: bool)

  datatype Launch = Launch(typ: string, informer: Informer)

  datatype State = State(
    informers: map<string, Informer>,
    started: set<string>,
    shuttingDown: bool,
    made: nat,                 // informers created so far
    launched: seq<Launch>)     // goroutines started, oldest first

  datatype Config = Config(customResync: map<string, int>, defaultResync: int, hasTransform: bool)

  const EMPTY := State(map[], {}, false, 0, [])

  // ---- The steps ----

  function AfterInformerFor(c: Config, s: State, typ: string): State {
    if typ in s.informers then s
    else
      var resync := if typ in c.customResync then c.customResync[typ] else c.defaultResync;
      s.(informers := s.informers[typ := Informer(s.made, resync, c.hasTransform)], made := s.made + 1)
  }

  /** Each of these types once, with its informer, in some order. */
  ghost predicate LaunchesOf(s: State, types: set<string>, launches: seq<Launch>) {
    && (forall l :: l in launches ==> l.typ in types && l.typ in s.informers && l.informer == s.informers[l.typ])
    && (forall t :: t in types ==> t in s.informers && Launch(t, s.informers[t]) in launches)
    && (forall i, j :: 0 <= i < j < |launches| ==> launches[i].typ != launches[j].typ)
  }

  ghost predicate AfterStart(s: State, s': State) {
    if s.shuttingDown then s' == s
    else
      && s' == s.(started := s.started + s.informers.Keys, launched := s'.launched)
      && s.launched <= s'.launched
      && LaunchesOf(s, s.informers.Keys - s.started, s'.launched[|s.launched|..])
  }

  function AfterShutdown(s: State): State {
    s.(shuttingDown := true)
  }

  ghost predicate Next(c: Config, s: State, s': State) {
    || (exists typ :: s' == AfterInformerFor(c, s, typ))
    || AfterStart(s, s')
    || s' == AfterShutdown(s)
  }

  class SharedInformerFactory {
    const config: Config
    var informers: map<string, Informer>
    var startedInformers: set<string>
    var shuttingDown: bool
    var made: nat
    ghost var launched: seq<Launch>

    constructor (config: Config)
      ensures this.config == config && View() == EMPTY
    {
      this.config := config;
      informers, startedInformers, shuttingDown, made, launched := map[], {}, false, 0, [];
    }

    ghost function View(): State
      reads this
    {
      State(informers, startedInformers, shuttingDown, made, launched)
    }

    method InformerFor(typ: string) returns (informer: Informer)
      modifies this
      ensures View() == AfterInformerFor(config, old(View()), typ)
      ensures typ in informers && informer == informers[typ]
      ensures typ in old(informers) ==> informers == old(informers)
      ensures typ !in old(informers) ==>
        && informers == old(informers)[typ := informer]
        && informer.resync == (if typ in config.customResync then config.customResync[typ] else config.defaultResync)
        && (informer.transformed <==> config.hasTransform)
        && informer.id == old(made) && made == old(made) + 1
    {
      if typ in informers {
        return informers[typ];
      }
      var resyncPeriod := config.defaultResync;
      if typ in config.customResync {
        resyncPeriod := config.customResync[typ];
      }
      informer := Informer(made, resyncPeriod, false);
      if config.hasTransform {
        informer := informer.(transformed := true);
      }
      informers, made := informers[typ := informer], made + 1;
    }

    method StartWithContext()
      modifies this
      ensures AfterStart(old(View()), View())
    {
      if shuttingDown {
        return;
      }
      var todo := informers.Keys;
      ghost var new_: seq<Launch> := [];
      while todo != {}
        invariant todo <= informers.Keys
        invariant View() == old(View()).(started := startedInformers, launched := old(launched) + new_)
        invariant startedInformers == old(startedInformers) + (informers.Keys - todo)
        invariant LaunchesOf(old(View()), informers.Keys - todo - old(startedInformers), new_)
        decreases todo
      {
        var typ :| typ in todo;
        todo := todo - {typ};
        if typ !in startedInformers {
          ghost var l := Launch(typ, informers[typ]);
          assert l in new_ + [l];
          launched, new_ := launched + [l], new_ + [l];
          startedInformers := startedInformers + {typ};
        }
      }
      assert launched[|old(launched)|..] == new_;
    }

    method Shutdown()
      modifies this
      ensures View() == AfterShutdown(old(View()))
    {
      shuttingDown := true;
    }

    /** The part of WaitForCacheSync under the lock. */
    method StartedSnapshot() returns (snapshot: map<string, Informer>)
      ensures snapshot == map t | t in informers && t in startedInformers :: informers[t]
    {
      snapshot := map[];
      var todo := informers.Keys;
      while todo != {}
        invariant todo <= informers.Keys
        invariant snapshot == map t | t in informers && t in startedInformers && t !in todo :: informers[t]
        decreases todo
      {
        var typ :| typ in todo;
        todo := todo - {typ};
        if typ in startedInformers {
          snapshot := snapshot[typ := informers[typ]];
        }
      }
    }
  }

  /** The report covers exactly the types of the snapshot; it carries an error exactly when one of
      them has not synced. */
  method ReportSync(snapshot: map<string, Informer>, hasSynced: set<Informer>) returns (synced: map<string, bool>, failed: bool)
    ensures synced.Keys == snapshot.Keys
    ensures forall t :: t in synced ==> (synced[t] <==> snapshot[t] in hasSynced)
    ensures failed <==> exists t :: t in synced && !synced[t]
  {
    synced, failed := map[], false;
    var todo := snapshot.Keys;
    while todo != {}
      invariant todo <= snapshot.Keys && synced.Keys == snapshot.Keys - todo
      invariant forall t :: t in synced ==> (synced[t] <==> snapshot[t] in hasSynced)
      invariant failed <==> exists t :: t in synced && !synced[t]
      decreases todo
    {
      var t :| t in todo;
      todo := todo - {t};
      ghost var before := synced;
      synced := synced[t := snapshot[t] in hasSynced];
      assert forall u :: u in before ==> synced[u] == before[u];
      if snapshot[t] !in hasSynced {
        failed := true;
      }
    }
  }

  // ---- Every run ----

  ghost predicate Inv(s: State) {
    && s.started <= s.informers.Keys
    && LaunchesOf(s, s.started, s.launched)
    && (forall t :: t in s.informers ==> s.informers[t].id < s.made)
    && (forall t, u :: t in s.informers && u in s.informers && s.informers[t].id == s.informers[u].id ==> t == u)
  }

  ghost predicate IsRun(c: Config, run: seq<State>) {
    && run != [] && run[0] == EMPTY
    && forall i :: 0 <= i < |run| - 1 ==> Next(c, run[i], run[i + 1])
  }

  lemma StartKeepsInv(s: State, s': State)
    requires Inv(s) && AfterStart(s, s')
    ensures Inv(s')
  {
    if !s.shuttingDown {
      var new_ := s'.launched[|s.launched|..];
      assert s'.launched == s.launched + new_;
      forall i, j | 0 <= i < j < |s'.launched| ensures s'.launched[i].typ != s'.launched[j].typ {
        assert i < |s.launched| ==> s'.launched[i] in s.launched;
        assert j >= |s.launched| ==> s'.launched[j] in new_;
        assert i >= |s.launched| ==> s'.launched[i] == new_[i - |s.launched|] && s'.launched[j] == new_[j - |s.launched|];
      }
    }
  }

  lemma {:induction false} RunKeepsInv(c: Config, run: seq<State>, i: nat)
    requires IsRun(c, run) && i < |run|
    ensures Inv(run[i])
  {
    if i > 0 {
      RunKeepsInv(c, run, i - 1);
      assert Next(c, run[i - 1], run[i - 1 + 1]);
      if AfterStart(run[i - 1], run[i]) {
        StartKeepsInv(run[i - 1], run[i]);
      }
    }
  }

  /** Started types are known types, and each known informer is launched at most once: exactly
      once if its type was started. No two types share an informer. */
  lemma LaunchedAtMostOnce(c: Config, run: seq<State>, i: nat)
    requires IsRun(c, run) && i < |run|
    ensures var s := run[i];
      && s.started <= s.informers.Keys
      && (forall j, k :: 0 <= j < k < |s.launched| ==> s.launched[j].informer != s.launched[k].informer)
      && (forall t :: t in s.started <==> t in s.informers && Launch(t, s.informers[t]) in s.launched)
  {
    RunKeepsInv(c, run, i);
    var s := run[i];
    forall j, k | 0 <= j < k < |s.launched| ensures s.launched[j].informer != s.launched[k].informer {
      assert s.launched[j] in s.launched && s.launched[k] in s.launched;
    }
  }

  /** A type keeps the informer it got first, for good; whatever was launched stays launched, and
      once the shutdown flag is set nothing is launched any more. */
  lemma {:induction false} InformersAreForever(c: Config, run: seq<State>, i: nat, j: nat)
    requires IsRun(c, run) && i <= j < |run|
    ensures forall typ :: typ in run[i].informers ==>
              typ in run[j].informers && run[j].informers[typ] == run[i].informers[typ]
    ensures run[i].launched <= run[j].launched
    ensures run[i].shuttingDown ==> run[j].shuttingDown && run[j].launched == run[i].launched
    decreases j - i
  {
    if i < j {
      assert Next(c, run[i], run[i + 1]);
      InformersAreForever(c, run, i + 1, j);
    }
  }
}
