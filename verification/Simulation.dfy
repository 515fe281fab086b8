/** The atomic operations are runs of `Interleaving`: a sync pass of `Reconcile` and an
    event of `Worker` are what happens when nothing comes between their steps. */
module Simulation {
  import opened Text
  import opened Identity
  import opened Planning
  import opened Registry
  import opened Reconcile
  import opened Worker
  import opened Interleaving
  import opened Passes

  lemma {:induction false} ListingRun(setting: Setting, s: State, list: seq<Service>) returns (run: seq<Action>)
    requires s.sync.Listing? && s.sync.list == []
    requires forall e :: e in list ==>
             e.id in s.services && setting.config.tag in s.services[e.id].tags && e == ServiceOf(s.services[e.id])
    ensures Steps(setting, s, run) == s.(sync := Listing(s.sync.apps, list))
  {
    if list == [] {
      run := [];
    } else {
      var init, last := list[..|list| - 1], list[|list| - 1];
      assert last in list && list == init + [last];
      var before := ListingRun(setting, s, init);
      run := before + [ListService(s.services[last.id])];
      OneMore(setting, s, before, ListService(s.services[last.id]));
    }
  }

  lemma Phase(setting: Setting, run: seq<Action>, a: Action, more: seq<Action>) returns (run': seq<Action>)
    ensures run <= run' && After(setting, run') == Steps(setting, Next(setting, After(setting, run), a), more)
  {
    OneMore(setting, Start(setting), run, a);
    StepsAppend(setting, Start(setting), run + [a], more);
    run' := run + [a] + more;
  }

  lemma ListingPhase(setting: Setting, run: seq<Action>, apps: seq<App>, list: seq<Service>, visible: set<ServiceId>)
    returns (run': seq<Action>)
    requires After(setting, run).sync.Idle?
    requires forall app :: app in apps ==>
             app.id in After(setting, run).marathon && After(setting, run).marathon[app.id] == app
    requires IsSnapshot(list, After(setting, run).services, visible, setting.config.tag)
    ensures run <= run' && After(setting, run') == After(setting, run).(sync := Listing(apps, list))
  {
    var more := ListingRun(setting, Next(setting, After(setting, run), ReadApps(apps)), list);
    run' := Phase(setting, run, ReadApps(apps), more);
  }

  /** Every pass over applications of Marathon and entries of the registry, with any
      faults, can end some run. */
  lemma PassIsARun(setting: Setting, run: seq<Action>, apps: seq<App>, list: seq<Service>, f: Faults,
                   visible: set<ServiceId>)
    returns (run': seq<Action>)
    requires After(setting, run).sync.Idle?
    requires forall app :: app in apps ==>
             app.id in After(setting, run).marathon && After(setting, run).marathon[app.id] == app
    requires IsSnapshot(list, After(setting, run).services, visible, setting.config.tag)
    requires AllNamedInRange(apps) && OwnersHaveDots(list, Running(apps))
    ensures var s := After(setting, run);
            && run <= run'
            && After(setting, run') ==
               s.(services := AfterSync(setting.config, f.dns, f.failRegister, f.failDeregister, s.services, apps, list,
                                        TaskLists(s.marathon, f.silent)))
  {
    var listed := ListingPhase(setting, run, apps, list, visible);
    var actions := PassCanEnd(setting, After(setting, listed), f);
    EveryPassIsTheAtomicOne(setting, After(setting, listed), actions, f);
    StepsAppend(setting, Start(setting), listed, actions);
    run' := listed + actions;
  }

  // ---- workers --------------------------------------------------------------

  function Worked(s: State, k: nat, services: Services, w: WorkerState): State
    requires k < |s.workers|
  {
    s.(services := services, workers := s.workers[k := w])
  }

  lemma {:induction false} WorkerPuttingRun(setting: Setting, s: State, k: nat, rs: seq<Registration>,
                                            failing: set<ServiceId>, more: seq<Registration>) returns (run: seq<Action>)
    requires k < |s.workers| && s.workers[k] == Putting(rs + more)
    ensures Steps(setting, s, run) == Worked(s, k, PutAll(s.services, rs, failing), Putting(more))
    decreases |rs|
  {
    if rs == [] {
      assert rs + more == more;
      run := [];
    } else {
      var init, last := rs[..|rs| - 1], rs[|rs| - 1];
      assert rs + more == init + ([last] + more);
      var before := WorkerPuttingRun(setting, s, k, init, failing, [last] + more);
      var put := WorkerPuts(k, last.id !in failing);
      run := before + [put];
      OneMore(setting, s, before, put);
      assert ([last] + more)[1..] == more;
    }
  }

  lemma BackToReady(setting: Setting, s: State, k: nat, services: Services, w: WorkerState)
    requires k < |s.workers| && s.workers[k].Ready?
    requires w == Putting([]) || (w.Removing? && w.found == [])
    ensures Next(setting, Worked(s, k, services, w), WorkerEnds(k)) == s.(services := services)
  {
    assert s.workers[k := w][k := Ready] == s.workers;
  }

  lemma HealthStarts(setting: Setting, s: State, k: nat, change: HealthChange, dns: map<string, string>)
    requires k < |s.workers| && s.workers[k].Ready? && ToRegister(change, s.marathon).Some?
    requires var o := ToRegister(change, s.marathon).value; NamedInRange(o.app, o.task)
    ensures var o := ToRegister(change, s.marathon).value;
            Next(setting, s, HealthEvent(k, change, true, dns)) ==
            Worked(s, k, s.services, Putting(RegistrationsOf(setting.config, dns, o.task, o.app) + []))
  {
    var o := ToRegister(change, s.marathon).value;
    var rs := RegistrationsOf(setting.config, dns, o.task, o.app);
    assert rs == rs + [];
  }

  /** A health event that the worker handles undisturbed, with Marathon's answer or without. */
  lemma HealthIsARun(setting: Setting, run: seq<Action>, k: nat, change: HealthChange, answered: bool,
                     dns: map<string, string>, failing: set<ServiceId>) returns (run': seq<Action>)
    requires var s := After(setting, run);
             && k < |s.workers| && s.workers[k].Ready?
             && (ToRegister(change, s.marathon).Some? ==>
                   var o := ToRegister(change, s.marathon).value; NamedInRange(o.app, o.task))
    ensures var s := After(setting, run);
            && run <= run'
            && After(setting, run') ==
               s.(services := AfterHealth(setting.config, dns, failing, s.services, change,
                                          if answered then s.marathon else map[]))
  {
    var s := After(setting, run);
    var event := HealthEvent(k, change, answered, dns);
    var order := ToRegister(change, if answered then s.marathon else map[]);
    if order.None? {
      run' := Phase(setting, run, event, []);
    } else {
      var rs := RegistrationsOf(setting.config, dns, order.value.task, order.value.app);
      HealthStarts(setting, s, k, change, dns);
      var puts := WorkerPuttingRun(setting, Next(setting, s, event), k, rs, failing, []);
      var run1 := Phase(setting, run, event, puts);
      BackToReady(setting, s, k, PutAll(s.services, rs, failing), Putting([]));
      run' := Phase(setting, run1, WorkerEnds(k), []);
    }
  }

  lemma {:induction false} FindingRun(setting: Setting, s: State, k: nat, task: TaskId, list: seq<Service>)
    returns (run: seq<Action>)
    requires k < |s.workers| && s.workers[k] == Finding(task, [])
    requires forall e :: e in list ==>
             e.id in s.services && OwnerTag(task) in s.services[e.id].tags && e == ServiceOf(s.services[e.id])
    ensures Steps(setting, s, run) == Worked(s, k, s.services, Finding(task, list))
  {
    if list == [] {
      assert s.workers[k := s.workers[k]] == s.workers;
      run := [];
    } else {
      var init, last := list[..|list| - 1], list[|list| - 1];
      assert last in list && list == init + [last];
      var before := FindingRun(setting, s, k, task, init);
      run := before + [WorkerFinds(k, s.services[last.id])];
      OneMore(setting, s, before, WorkerFinds(k, s.services[last.id]));
    }
  }

  lemma {:induction false} RemovingRun(setting: Setting, s: State, k: nat, task: TaskId, list: seq<Service>,
                                       failing: set<ServiceId>, more: seq<Service>) returns (run: seq<Action>)
    requires k < |s.workers| && s.workers[k] == Removing(task, list + more)
    ensures Steps(setting, s, run) == Worked(s, k, DropAll(s.services, list, failing), Removing(task, more))
    decreases |list|
  {
    if list == [] {
      assert list + more == more;
      run := [];
    } else {
      var init, last := list[..|list| - 1], list[|list| - 1];
      assert list + more == init + ([last] + more) && list == init + [last];
      var before := RemovingRun(setting, s, k, task, init, failing, [last] + more);
      var drop := WorkerDeregisters(k, last.id !in failing);
      run := before + [drop];
      OneMore(setting, s, before, drop);
      assert ([last] + more)[1..] == more;
      DropOneMore(s.services, init, last, failing);
    }
  }

  /** The services that a lookup by task finds, in some order. */
  predicate IsLookup(list: seq<Service>, s: Services, visible: set<ServiceId>, task: TaskId)
  {
    && (forall e :: e in list ==> e.id in IdsOfTask(s, visible, task) && e == ServiceOf(s[e.id]))
    && forall id :: id in IdsOfTask(s, visible, task) ==> ServiceOf(s[id]) in list
  }

  /** A status event that the worker handles undisturbed. */
  lemma StatusIsARun(setting: Setting, run: seq<Action>, k: nat, update: StatusUpdate, list: seq<Service>,
                     visible: set<ServiceId>, failing: set<ServiceId>) returns (run': seq<Action>)
    requires var s := After(setting, run);
             && k < |s.workers| && s.workers[k].Ready? && Keyed(s.services)
             && IsLookup(list, s.services, visible, update.task)
    ensures var s := After(setting, run);
            && run <= run'
            && After(setting, run') == s.(services := AfterStatus(failing, s.services, Some(visible), update))
  {
    var s := After(setting, run);
    if !Terminal(update.status) {
      run' := Phase(setting, run, StatusEvent(k, update), []);
    } else {
      var s1 := Next(setting, s, StatusEvent(k, update));
      var finds := FindingRun(setting, s1, k, update.task, list);
      var run1 := Phase(setting, run, StatusEvent(k, update), finds);
      var s2 := Next(setting, After(setting, run1), StartRemoving(k));
      assert list == list + [];
      var drops := RemovingRun(setting, s2, k, update.task, list, failing, []);
      var run2 := Phase(setting, run1, StartRemoving(k), drops);
      assert IdsOf(list) == IdsOfTask(s.services, visible, update.task);
      BackToReady(setting, s, k, DropAll(s.services, list, failing), Removing(update.task, []));
      run' := Phase(setting, run2, WorkerEnds(k), []);
    }
  }

  // ---- what else may happen -------------------------------------------------

  /** Marathon may show anything at any time, as long as it names tasks as it does. */
  lemma AnyChangeIsPossible(setting: Setting, run: seq<Action>, marathon: Applications)
    requires AllSane(setting, marathon)
    ensures var s := After(setting, run);
            After(setting, run + [MarathonChanges(marathon)]) ==
            s.(marathon := marathon, shown := s.shown + marathon.Values)
  {
    OneMore(setting, Start(setting), run, MarathonChanges(marathon));
  }

  lemma {:induction false} ShownLater(setting: Setting, run: seq<Action>, i: nat, n: nat, app: App)
    requires Regular(setting) && i <= n <= |run| && app in At(setting, run, i).marathon.Values
    ensures app in At(setting, run, n).shown
  {
    if i == n {
      Always(setting, run[..n]);
    } else {
      ShownLater(setting, run, i, n - 1, app);
      OneStep(setting, run, n - 1);
      ShownGrows(setting, At(setting, run, n - 1), run[n - 1]);
    }
  }

  /** Marathon showed the healthy task in a consul application at that time, and this is one
      of its registrations. */
  ghost predicate WasDue(setting: Setting, run: seq<Action>, i: nat, o: Order, dns: map<string, string>,
                         r: Registration)
  {
    && i <= |run| && o.app in At(setting, run, i).marathon.Values && o.task in o.app.tasks
    && IsConsulApp(o.app) && Healthy(o.task) && NamedInRange(o.app, o.task)
    && r in RegistrationsOf(setting.config, dns, o.task, o.app)
  }

  lemma DueIsKnown(setting: Setting, run: seq<Action>, i: nat, o: Order, dns: map<string, string>, r: Registration)
    requires Regular(setting) && WasDue(setting, run, i, o, dns, r)
    ensures Known(setting, After(setting, run).shown, r)
    ensures setting.config.tag in r.tags && OwnerTag(o.task.id) in r.tags
  {
    var s := After(setting, run);
    assert run[..|run|] == run;
    ShownLater(setting, run, i, |run|, o.app);
    Always(setting, run);
    assert Registrable(s.shown, o) && MadeFor(setting, o, dns, r);
    assert Sane(setting, o.app);
    RegistrationNamesItsOwner(setting.config, dns, o.task, o.app, r);
    SingleOwnerIsFound(r.tags, o.task.id);
  }

  /** What was due at some time can be answered to a pass ever after. */
  lemma PassMayHearOldAnswers(setting: Setting, run: seq<Action>, i: nat, o: Order, dns: map<string, string>,
                              r: Registration)
    requires Regular(setting) && WasDue(setting, run, i, o, dns, r) && After(setting, run).sync.Listing?
    ensures var s := After(setting, run);
            Next(setting, s, ListService(r)).sync == Listing(s.sync.apps, s.sync.list + [ServiceOf(r)])
  {
    DueIsKnown(setting, run, i, o, dns, r);
    KnownIsListed(setting, After(setting, run), r);
  }

  lemma KnownIsListed(setting: Setting, s: State, r: Registration)
    requires s.sync.Listing? && Answerable(setting, s.shown, s.services, r) && setting.config.tag in r.tags
    ensures SyncStep(setting, s, ListService(r)) ==
            s.(sync := Listing(s.sync.apps, s.sync.list + [ServiceOf(r)]))
  {
  }

  /** And to a worker that looks for the task. */
  lemma WorkerMayHearOldAnswers(setting: Setting, run: seq<Action>, i: nat, o: Order, dns: map<string, string>,
                                r: Registration, k: nat)
    requires Regular(setting) && WasDue(setting, run, i, o, dns, r) && k < |After(setting, run).workers|
    requires After(setting, run).workers[k].Finding? && After(setting, run).workers[k].task == o.task.id
    ensures var s := After(setting, run);
            Next(setting, s, WorkerFinds(k, r)).workers[k] ==
            Finding(o.task.id, s.workers[k].found + [ServiceOf(r)])
  {
    DueIsKnown(setting, run, i, o, dns, r);
    KnownIsFound(setting, After(setting, run), After(setting, run).workers[k], k, r);
  }

  lemma KnownIsFound(setting: Setting, s: State, w: WorkerState, k: nat, r: Registration)
    requires w.Finding? && Answerable(setting, s.shown, s.services, r) && OwnerTag(w.task) in r.tags
    ensures WorkerStep(setting, s.shown, s.services, s.marathon, w, WorkerFinds(k, r)) ==
            (Finding(w.task, w.found + [ServiceOf(r)]), s.services)
  {
  }

  /** A listing can fail, and so can a search for a task; the registry stays as it is. */
  lemma LookupsCanFail(setting: Setting, run: seq<Action>)
    ensures var s := After(setting, run);
            && (s.sync.Listing? ==> Next(setting, s, SyncEnds) == s.(sync := Idle))
            && forall k: nat :: k < |s.workers| && s.workers[k].Finding? ==>
                 Next(setting, s, WorkerEnds(k)) == s.(workers := s.workers[k := Ready])
  {
  }
}
