/** Whatever happened before, one undisturbed pass with nothing failing puts the
    registry right. */
module Recovery {
  import opened Text
  import opened Identity
  import opened Planning
  import opened Registry
  import opened Reconcile
  import opened Convergence
  import opened Interleaving
  import opened Passes
  import opened Simulation

  // ---- what every run keeps -------------------------------------------------

  /** In every reachable registry the ID space of a task holds only the task's entries. */
  lemma ReachableIsTidy(setting: Setting, run: seq<Action>)
    requires Regular(setting) && Undisputed(setting)
    ensures Keyed(After(setting, run).services) && Tidy(After(setting, run).services, setting.universe)
  {
    var s := After(setting, run);
    Always(setting, run);
    forall id, t | id in s.services && t in setting.universe && Begins(id, t)
      ensures Owner(s.services[id].tags) == Some(t)
    {
      if Explained(setting, s.shown, s.services[id]) {
        var t' := ExplainedHasOwner(setting, s.shown, s.services[id]);
        if t != t' {
          BeginsWithOne(id, t, t');
        }
      }
    }
  }

  /** The owners of all tagged entries have a dot. */
  predicate AllDotted(config: Config, s: Services) { OwnersDotted(s, s.Keys, config.tag, {}) }

  lemma ExplainedIsDotted(setting: Setting, shown: set<App>, r: Registration)
    requires Explained(setting, shown, r) && forall a :: a in shown ==> Sane(setting, a)
    ensures Owner(r.tags).Some? && '.' in Owner(r.tags).value
  {
    var o, dns :| Registrable(shown, o) && MadeFor(setting, o, dns, r);
    assert Sane(setting, o.app);
    RegistrationNamesItsOwner(setting.config, dns, o.task, o.app, r);
  }

  lemma SeenIsDotted(setting: Setting, s: State, e: Service)
    requires AllDotted(setting.config, setting.services) && Invariant(setting, s)
    requires Seen(setting, s.shown, e) && setting.config.tag in e.tags
    ensures Owner(e.tags).Some? ==> '.' in Owner(e.tags).value
  {
    var r :| Known(setting, s.shown, r) && ServiceOf(r) == e;
    if Explained(setting, s.shown, r) {
      ExplainedIsDotted(setting, s.shown, r);
    }
  }

  // ---- a pass in progress can end -------------------------------------------

  predicate AllTagged(tag: string, list: seq<Service>) { forall e :: e in list ==> tag in e.tags }

  lemma HeldStaysTagged(setting: Setting, s: State, a: Action)
    requires AllTagged(setting.config.tag, Held(s.sync))
    ensures AllTagged(setting.config.tag, Held(Next(setting, s, a).sync))
  {
    if s.sync.Judging? && s.sync.rest != [] {
      assert s.sync.rest == [s.sync.rest[0]] + s.sync.rest[1..];
    }
    if s.sync.Condemned? {
      assert forall e :: e in s.sync.rest ==> e in [s.sync.service] + s.sync.rest;
    }
  }

  lemma {:induction false} HeldIsTagged(setting: Setting, run: seq<Action>)
    ensures AllTagged(setting.config.tag, Held(After(setting, run).sync))
  {
    if run != [] {
      HeldIsTagged(setting, run[..|run| - 1]);
      HeldStaysTagged(setting, After(setting, run[..|run| - 1]), run[|run| - 1]);
    }
  }

  /** No application that Marathon ever showed names a port that one of its tasks lacks. */
  predicate NeverPanics(shown: set<App>)
  {
    forall app, task :: app in shown && task in app.tasks ==> NamedInRange(app, task)
  }

  lemma ShownAreInRange(shown: set<App>, apps: seq<App>)
    requires NeverPanics(shown) && forall app :: app in apps ==> app in shown
    ensures AllNamedInRange(apps)
  {
    forall i, j | 0 <= i < |apps| && 0 <= j < |apps[i].tasks| ensures NamedInRange(apps[i], apps[i].tasks[j]) {
      assert apps[i] in apps && apps[i].tasks[j] in apps[i].tasks;
    }
  }

  /** Nothing that the pass still has to do makes the program panic. */
  lemma ReachableCanGoOn(setting: Setting, run: seq<Action>)
    requires Regular(setting) && AllDotted(setting.config, setting.services) && NeverPanics(After(setting, run).shown)
    ensures InRangeAhead(After(setting, run).sync) && DottedAhead(After(setting, run).sync)
  {
    var s := After(setting, run);
    Always(setting, run);
    if s.sync.Listing? {
      ShownAreInRange(s.shown, s.sync.apps);
    }
    HeldIsTagged(setting, run);
    forall e | e in Held(s.sync) && Seen(setting, s.shown, e)
      ensures Owner(e.tags).Some? ==> '.' in Owner(e.tags).value
    {
      SeenIsDotted(setting, s, e);
    }
    if s.sync.Condemned? {
      assert forall e :: e in s.sync.rest ==> e in Held(s.sync);
    }
  }

  /** From every reachable state, however far a pass has come and whatever fails from
      there, it can end, and then the registry is the one that was settled. */
  lemma PassEnds(setting: Setting, run: seq<Action>, f: Faults) returns (actions: seq<Action>)
    requires Regular(setting) && AllDotted(setting.config, setting.services) && NeverPanics(After(setting, run).shown)
    ensures InRangeAhead(After(setting, run).sync)
    ensures Conforming(setting, After(setting, run), actions, f)
    ensures var s := After(setting, run);
            After(setting, run + actions) == s.(services := Finish(setting.config, s, f), sync := Idle)
  {
    ReachableCanGoOn(setting, run);
    actions := PassCanEnd(setting, After(setting, run), f);
    EveryPassFinishes(setting, After(setting, run), actions, f);
    StepsAppend(setting, Start(setting), run, actions);
  }

  // ---- one more pass --------------------------------------------------------

  /** The applications of Marathon that carry the consul label, in any order. */
  predicate ListsApps(apps: seq<App>, marathon: Applications)
  {
    && (forall app :: app in apps ==> app.id in marathon && marathon[app.id] == app && IsConsulApp(app))
    && forall id :: id in marathon && IsConsulApp(marathon[id]) ==> marathon[id] in apps
  }

  function Frozen(setting: Setting, dns: map<string, string>, marathon: Applications, apps: seq<App>): World
  {
    World(setting.config, dns, apps, TaskLists(marathon, {}))
  }

  lemma ReachableIsOrdinary(setting: Setting, run: seq<Action>, dns: map<string, string>, apps: seq<App>)
    requires Regular(setting) && Undisputed(setting) && NeverPanics(After(setting, run).shown)
    requires ListsApps(apps, After(setting, run).marathon) && UniqueTasks(apps)
    ensures Ordinary(Frozen(setting, dns, After(setting, run).marathon, apps)) && Running(apps) <= setting.universe
  {
    var s := After(setting, run);
    Always(setting, run);
    forall app | app in apps ensures Sane(setting, app) && app in s.shown {
      assert s.marathon[app.id] == app;
    }
    forall id | id in Running(apps) ensures id in setting.universe {
      var i, j :| 0 <= i < |apps| && 0 <= j < |apps[i].tasks| && apps[i].tasks[j].id == id;
      assert apps[i] in apps && Sane(setting, apps[i]);
    }
    ShownAreInRange(s.shown, apps);
  }

  lemma {:induction false} SnapshotOf(s: Services, ids: set<ServiceId>) returns (list: seq<Service>)
    requires Keyed(s) && ids <= s.Keys
    ensures Lists(list, s, ids)
  {
    if ids == {} {
      list := [];
    } else {
      var id :| id in ids;
      var init := SnapshotOf(s, ids - {id});
      list := init + [ServiceOf(s[id])];
    }
  }

  predicate Runs(marathon: Applications, o: Order)
  {
    o.app.id in marathon && marathon[o.app.id] == o.app && o.task in o.app.tasks && NamedInRange(o.app, o.task)
  }

  /** The tagged entries of a task. */
  function EntriesOf(config: Config, s: Services, t: TaskId): set<ServiceId>
  {
    set id | id in s && config.tag in s[id].tags && Owner(s[id].tags) == Some(t)
  }

  /** Every planned registration of the task is there, with its data. */
  predicate Complete(config: Config, dns: map<string, string>, s: Services, o: Order)
    requires NamedInRange(o.app, o.task)
  {
    forall r :: r in RegistrationsOf(config, dns, o.task, o.app) ==>
      r.id in s && s[r.id] in RegistrationsOf(config, dns, o.task, o.app)
  }

  /** Every healthy task of a consul application is complete, or holds at least as many
      entries as its application expects. */
  ghost predicate Supplied(config: Config, dns: map<string, string>, marathon: Applications, s: Services)
  {
    forall o :: Runs(marathon, o) && IsConsulApp(o.app) && Healthy(o.task) ==>
      Complete(config, dns, s, o) || |EntriesOf(config, s, o.task.id)| >= IntentsNumber(o.app)
  }

  /** Every service with the configured tag belongs to a live task. */
  predicate Cleared(config: Config, marathon: Applications, s: Services)
  {
    forall id :: id in s && config.tag in s[id].tags ==>
      Owner(s[id].tags).Some? && Live(marathon, Owner(s[id].tags).value)
  }

  lemma SnapshotCounts(w: World, s: Services, list: seq<Service>, t: TaskId)
    requires FullSnapshot(w, list, s)
    ensures Count(list, t) == |EntriesOf(w.config, s, t)|
  {
    SnapshotCount(list, s, s.Keys, w.config.tag, t);
    assert EntriesOf(w.config, s, t) == OwnedIds(s, s.Keys, w.config.tag, t);
  }

  lemma SmallerSet<T>(a: set<T>, b: set<T>)
    requires a <= b
    ensures |a| <= |b|
  {
    assert b == a + (b - a);
  }

  /** A task that lacked nothing still has all that it had. */
  lemma EnoughStaysEnough(w: World, s: Services, list: seq<Service>, o: Order)
    requires Ordinary(w) && Tidy(s, Running(w.apps)) && FullSnapshot(w, list, s)
    requires o.app in w.apps && o.task in o.app.tasks && IsConsulApp(o.app) && Healthy(o.task)
    requires !NeedsRegistration(o.app, o.task, list)
    ensures |EntriesOf(w.config, Pass(w, s, list), o.task.id)| >= IntentsNumber(o.app)
  {
    var before, after := EntriesOf(w.config, s, o.task.id), EntriesOf(w.config, Pass(w, s, list), o.task.id);
    SnapshotCounts(w, s, list, o.task.id);
    TodoMembers(w.apps, list);
    forall id | id in before ensures id in after {
      UntouchedIsKept(w, s, list, o, id);
    }
    SmallerSet(before, after);
  }

  lemma PassSupplies(w: World, marathon: Applications, s: Services, list: seq<Service>)
    requires Ordinary(w) && Tidy(s, Running(w.apps)) && FullSnapshot(w, list, s) && ListsApps(w.apps, marathon)
    ensures Supplied(w.config, w.dns, marathon, Pass(w, s, list))
  {
    forall o | Runs(marathon, o) && IsConsulApp(o.app) && Healthy(o.task)
      ensures Complete(w.config, w.dns, Pass(w, s, list), o) ||
              |EntriesOf(w.config, Pass(w, s, list), o.task.id)| >= IntentsNumber(o.app)
    {
      assert o.app in w.apps;
      if NeedsRegistration(o.app, o.task, list) {
        forall r | r in RegistrationsOf(w.config, w.dns, o.task, o.app)
          ensures r.id in Pass(w, s, list) && Pass(w, s, list)[r.id] in RegistrationsOf(w.config, w.dns, o.task, o.app)
        {
          MissingTasksAreRegistered(w, s, list, o, r);
        }
      } else {
        EnoughStaysEnough(w, s, list, o);
      }
    }
  }

  lemma PassClears(setting: Setting, w: World, marathon: Applications, s: Services, list: seq<Service>)
    requires Ordinary(w) && FullSnapshot(w, list, s) && AllSane(setting, marathon)
    requires ListsApps(w.apps, marathon) && w.latest == TaskLists(marathon, {})
    ensures Cleared(w.config, marathon, Pass(w, s, list))
  {
    var s' := Pass(w, s, list);
    forall id | id in s' && w.config.tag in s'[id].tags
      ensures Owner(s'[id].tags).Some? && Live(marathon, Owner(s'[id].tags).value)
    {
      OnlyLiveServicesRemain(w, s, list, id);
      NotStaleIsLive(setting, w, marathon, ServiceOf(s'[id]));
    }
  }

  lemma NotStaleIsLive(setting: Setting, w: World, marathon: Applications, e: Service)
    requires AllSane(setting, marathon) && ListsApps(w.apps, marathon) && w.latest == TaskLists(marathon, {})
    requires !Stale(e, Running(w.apps), w.latest)
    ensures Owner(e.tags).Some? && Live(marathon, Owner(e.tags).value)
  {
    var t := Owner(e.tags).value;
    if t in Running(w.apps) {
      var i, j :| 0 <= i < |w.apps| && 0 <= j < |w.apps[i].tasks| && w.apps[i].tasks[j].id == t;
      assert w.apps[i] in w.apps && w.apps[i].tasks[j] in marathon[w.apps[i].id].tasks;
    } else {
      assert Answer(marathon, t);
      RecheckFindsLiveTasks(setting, marathon, t);
    }
  }

  function NoFaults(dns: map<string, string>): Faults { Faults(dns, {}, {}, {}) }

  /** A pass about to start registering: it has read the applications with the consul label,
      and it has listed the registry as it is. */
  predicate AboutToStart(setting: Setting, s: State, apps: seq<App>, list: seq<Service>)
  {
    && s.sync == Listing(apps, list) && ListsApps(apps, s.marathon) && UniqueTasks(apps)
    && IsSnapshot(list, s.services, s.services.Keys, setting.config.tag)
  }

  /** Recovery: after any run, however passes, events, failures and changes of Marathon
      were interleaved, every pass that then goes through undisturbed and without faults
      supplies every healthy task, and leaves no service of a task that is gone. */
  lemma EveryPassRecovers(setting: Setting, run: seq<Action>, actions: seq<Action>, dns: map<string, string>,
                          apps: seq<App>, list: seq<Service>)
    requires Regular(setting) && Undisputed(setting) && NeverPanics(After(setting, run).shown)
    requires AboutToStart(setting, After(setting, run), apps, list)
    requires Conforming(setting, After(setting, run), actions, NoFaults(dns))
    requires After(setting, run + actions).sync.Idle?
    ensures var s' := After(setting, run + actions);
            && s'.marathon == After(setting, run).marathon
            && Supplied(setting.config, dns, s'.marathon, s'.services)
            && Cleared(setting.config, s'.marathon, s'.services)
  {
    var s := After(setting, run);
    var w := Frozen(setting, dns, s.marathon, apps);
    Always(setting, run);
    ReachableIsTidy(setting, run);
    ReachableIsOrdinary(setting, run, dns, apps);
    StepsAppend(setting, Start(setting), run, actions);
    EveryPassIsTheAtomicOne(setting, s, actions, NoFaults(dns));
    PassSupplies(w, s.marathon, s.services, list);
    PassClears(setting, w, s.marathon, s.services, list);
  }

  /** Such a pass is always possible: whatever the run did, and whatever fails until the
      pass in progress ends, one more can read, list, and go through without faults. */
  lemma AnyRunRecovers(setting: Setting, run: seq<Action>, f: Faults, dns: map<string, string>, apps: seq<App>)
    returns (rest: seq<Action>, listed: seq<Action>, list: seq<Service>, actions: seq<Action>)
    requires Regular(setting) && Undisputed(setting) && AllDotted(setting.config, setting.services)
    requires NeverPanics(After(setting, run).shown)
    requires ListsApps(apps, After(setting, run).marathon) && UniqueTasks(apps)
    ensures Conforming(setting, After(setting, run), rest, f) && After(setting, run + rest).sync.Idle?
    ensures run + rest <= listed && AboutToStart(setting, After(setting, listed), apps, list)
    ensures After(setting, listed) == After(setting, run + rest).(sync := Listing(apps, list))
    ensures Conforming(setting, After(setting, listed), actions, NoFaults(dns))
    ensures var s' := After(setting, listed + actions);
            && s'.sync.Idle? && s'.marathon == After(setting, run).marathon
            && Supplied(setting.config, dns, s'.marathon, s'.services)
            && Cleared(setting.config, s'.marathon, s'.services)
  {
    rest := PassEnds(setting, run, f);
    var mid := run + rest;
    var s := After(setting, mid);
    Always(setting, mid);
    list := SnapshotOf(s.services, TaggedIds(s.services, s.services.Keys, setting.config.tag));
    listed := ListingPhase(setting, mid, apps, list, s.services.Keys);
    actions := PassEnds(setting, listed, NoFaults(dns));
    EveryPassRecovers(setting, listed, actions, dns, apps, list);
  }
}
