/** Sync passes, event workers and Marathon side by side, one registry call at a
    time. A run is any sequence of actions: whatever arrives late, twice or never,
    whatever fails, and however the steps interleave. */
module Interleaving {
  import opened Text
  import opened Identity
  import opened Planning
  import opened Registry
  import opened Reconcile
  import opened Convergence
  import opened Worker

  type Applications = map<AppId, App>

  /** What is fixed for a run: the tag and separator, all task IDs that ever occur,
      and what the registry and Marathon hold when the run begins. */
  datatype Setting = Setting(config: Config, universe: set<TaskId>, services: Services, marathon: Applications,
                             workers: nat)

  datatype SyncState =
    | Idle
    | Listing(apps: seq<App>, list: seq<Service>)
    | Registering(apps: seq<App>, list: seq<Service>, todo: seq<Order>, pending: seq<Registration>)
    | Judging(apps: seq<App>, rest: seq<Service>)
    | Condemned(apps: seq<App>, rest: seq<Service>, service: Service)

  datatype WorkerState =
    | Ready
    | Putting(pending: seq<Registration>)
    | Finding(task: TaskId, found: seq<Service>)
    | Removing(task: TaskId, found: seq<Service>)

  /** `shown` collects every application that Marathon ever showed. */
  datatype State = State(services: Services, marathon: Applications, shown: set<App>, sync: SyncState,
                         workers: seq<WorkerState>)

  datatype Action =
    | MarathonChanges(marathon: Applications)
    // a sync pass
    | ReadApps(apps: seq<App>)
    | ListService(r: Registration)
    | StartRegistering
    | NextOrder(dns: map<string, string>)
    | SyncPuts(ok: bool)
    | StartJudging
    | Judge(answered: bool)
    | SyncDeregisters(ok: bool)
    | SyncEnds
    // the worker `k`
    | HealthEvent(k: nat, change: HealthChange, answered: bool, dns: map<string, string>)
    | WorkerPuts(k: nat, ok: bool)
    | StatusEvent(k: nat, update: StatusUpdate)
    | WorkerFinds(k: nat, r: Registration)
    | StartRemoving(k: nat)
    | WorkerDeregisters(k: nat, ok: bool)
    | WorkerEnds(k: nat)

  // ---- Marathon -------------------------------------------------------------

  /** Marathon names tasks after their application. */
  predicate WellNamed(app: App)
  {
    forall task :: task in app.tasks ==> '.' in task.id && AppIdOf(task.id) == app.id
  }

  /** Marathon's own naming of tasks, for an application whose ID has no underscore. */
  lemma NamedByMarathon(app: App, path: string)
    requires app.id == "/" + path && '_' !in path
    requires forall task :: task in app.tasks ==> exists suffix :: '.' !in suffix && task.id == TaskIdFor(path, suffix)
    ensures WellNamed(app)
  {
    forall task | task in app.tasks ensures '.' in task.id && AppIdOf(task.id) == app.id {
      var suffix :| '.' !in suffix && task.id == TaskIdFor(path, suffix);
      AppIdRoundTrip(path, suffix);
    }
  }

  predicate Sane(setting: Setting, app: App)
  {
    WellNamed(app) && CleanApp(setting.config, app) && forall task :: task in app.tasks ==> task.id in setting.universe
  }

  predicate AllSane(setting: Setting, marathon: Applications)
  {
    forall id :: id in marathon ==> marathon[id].id == id && Sane(setting, marathon[id])
  }

  /** Some application runs the task. */
  predicate Live(marathon: Applications, task: TaskId)
  {
    exists id :: id in marathon && exists t :: t in marathon[id].tasks && t.id == task
  }

  /** What the re-check asks: is the task on the list of the application that its ID names? */
  predicate Answer(marathon: Applications, task: TaskId)
    requires '.' in task
  {
    AppIdOf(task) in marathon && FindTask(task, marathon[AppIdOf(task)].tasks).Some?
  }

  /** Because application IDs can be read back from task IDs, the re-check finds
      exactly the live tasks. */
  lemma RecheckFindsLiveTasks(setting: Setting, marathon: Applications, task: TaskId)
    requires AllSane(setting, marathon) && '.' in task
    ensures Answer(marathon, task) <==> Live(marathon, task)
  {
    if Live(marathon, task) {
      var id :| id in marathon && exists t :: t in marathon[id].tasks && t.id == task;
      var t :| t in marathon[id].tasks && t.id == task;
      assert Sane(setting, marathon[id]);
      assert id == AppIdOf(task);
    }
  }

  // ---- where registrations come from ----------------------------------------

  /** Marathon showed the task as healthy, in an application with a consul label. */
  predicate Registrable(shown: set<App>, o: Order)
  {
    o.app in shown && o.task in o.app.tasks && IsConsulApp(o.app) && Healthy(o.task)
  }

  predicate MadeFor(setting: Setting, o: Order, dns: map<string, string>, r: Registration)
  {
    NamedInRange(o.app, o.task) && r in RegistrationsOf(setting.config, dns, o.task, o.app)
  }

  /** The registration was generated for a task that Marathon showed as healthy. */
  ghost predicate Explained(setting: Setting, shown: set<App>, r: Registration)
  {
    exists o, dns :: Registrable(shown, o) && MadeFor(setting, o, dns, r)
  }

  /** There from the start, or explained. */
  ghost predicate Known(setting: Setting, shown: set<App>, r: Registration)
  {
    (r.id in setting.services && setting.services[r.id] == r) || Explained(setting, shown, r)
  }

  /** What the catalogue can answer: an entry of the registry, or, if the answer is old,
      any registration that may once have been one. */
  ghost predicate Answerable(setting: Setting, shown: set<App>, s: Services, r: Registration)
  {
    (r.id in s && s[r.id] == r) || Known(setting, shown, r)
  }

  // ---- steps ----------------------------------------------------------------

  function Put(s: Services, r: Registration, ok: bool): Services { if ok then s[r.id := r] else s }

  function Drop(s: Services, e: Service, ok: bool): Services { if ok then s - {e.id} else s }

  /** An owner without a dot stops the program, unless its task is listed. */
  predicate Judgeable(apps: seq<App>, e: Service)
  {
    match Owner(e.tags) case None => true case Some(t) => '.' in t || t in Running(apps)
  }

  /** The verdict on one service of the listing, as far as it needs Marathon's answer. */
  predicate Spared(marathon: Applications, apps: seq<App>, e: Service, answered: bool)
    requires Judgeable(apps, e)
  {
    match Owner(e.tags)
    case None => false
    case Some(task) => task in Running(apps) || (answered && Answer(marathon, task))
  }

  ghost function SyncStep(setting: Setting, s: State, a: Action): State
  {
    match (s.sync, a)
    case (Idle, ReadApps(apps)) =>
      // some of Marathon's applications; the consul label is checked again later
      if forall app :: app in apps ==> app.id in s.marathon && s.marathon[app.id] == app
      then s.(sync := Listing(apps, [])) else s
    case (Listing(apps, list), ListService(r)) =>
      if Answerable(setting, s.shown, s.services, r) && setting.config.tag in r.tags
      then s.(sync := Listing(apps, list + [ServiceOf(r)])) else s
    case (Listing(apps, list), StartRegistering) =>
      s.(sync := Registering(apps, list, Todo(apps, list), []))
    case (Listing(apps, list), SyncEnds) =>
      s.(sync := Idle)
    case (Registering(apps, list, todo, pending), NextOrder(dns)) =>
      // a named port definition beyond the task's ports stops the program
      if pending == [] && todo != [] && NamedInRange(todo[0].app, todo[0].task)
      then
        var rs := RegistrationsOf(setting.config, dns, todo[0].task, todo[0].app);
        s.(sync := Registering(apps, list, todo[1..], rs))
      else s
    case (Registering(apps, list, todo, pending), SyncPuts(ok)) =>
      if pending != []
      then s.(services := Put(s.services, pending[0], ok), sync := Registering(apps, list, todo, pending[1..])) else s
    case (Registering(apps, list, todo, pending), StartJudging) =>
      if pending == [] && todo == [] then s.(sync := Judging(apps, list)) else s
    case (Judging(apps, rest), Judge(answered)) =>
      if rest == [] || !Judgeable(apps, rest[0]) then s
      else if Spared(s.marathon, apps, rest[0], answered) then s.(sync := Judging(apps, rest[1..]))
      else s.(sync := Condemned(apps, rest[1..], rest[0]))
    case (Condemned(apps, rest, service), SyncDeregisters(ok)) =>
      s.(services := Drop(s.services, service, ok), sync := Judging(apps, rest))
    case (Judging(apps, rest), SyncEnds) =>
      if rest == [] then s.(sync := Idle) else s
    case _ => s
  }

  /** A step of one worker: its new state and the registry. */
  ghost function WorkerStep(setting: Setting, shown: set<App>, s: Services, marathon: Applications, w: WorkerState,
                            a: Action)
    : (WorkerState, Services)
  {
    match (w, a)
    case (Ready, HealthEvent(_, change, answered, dns)) =>
      (match ToRegister(change, if answered then marathon else map[])
       case Some(o) =>
         if NamedInRange(o.app, o.task)
         then (Putting(RegistrationsOf(setting.config, dns, o.task, o.app)), s) else (w, s)
       case None => (w, s))
    case (Putting(pending), WorkerPuts(_, ok)) =>
      if pending != [] then (Putting(pending[1..]), Put(s, pending[0], ok)) else (w, s)
    case (Putting(pending), WorkerEnds(_)) =>
      if pending == [] then (Ready, s) else (w, s)
    case (Ready, StatusEvent(_, update)) =>
      if Terminal(update.status) then (Finding(update.task, []), s) else (w, s)
    case (Finding(task, found), WorkerFinds(_, r)) =>
      if Answerable(setting, shown, s, r) && OwnerTag(task) in r.tags
      then (Finding(task, found + [ServiceOf(r)]), s) else (w, s)
    case (Finding(task, found), StartRemoving(_)) => (Removing(task, found), s)
    case (Finding(task, found), WorkerEnds(_)) => (Ready, s)
    case (Removing(task, found), WorkerDeregisters(_, ok)) =>
      if found != [] then (Removing(task, found[1..]), Drop(s, found[0], ok)) else (w, s)
    case (Removing(task, found), WorkerEnds(_)) => if found == [] then (Ready, s) else (w, s)
    case _ => (w, s)
  }

  predicate OfWorker(a: Action)
  {
    || a.HealthEvent? || a.WorkerPuts? || a.WorkerEnds?
    || a.StatusEvent? || a.WorkerFinds? || a.StartRemoving? || a.WorkerDeregisters?
  }

  /** One step; an action that is not possible in the state changes nothing. */
  ghost function Next(setting: Setting, s: State, a: Action): State
  {
    if a.MarathonChanges? then
      if AllSane(setting, a.marathon) then s.(marathon := a.marathon, shown := s.shown + a.marathon.Values) else s
    else if OfWorker(a) then
      if a.k < |s.workers| then
        var (w, services) := WorkerStep(setting, s.shown, s.services, s.marathon, s.workers[a.k], a);
        s.(services := services, workers := s.workers[a.k := w])
      else s
    else SyncStep(setting, s, a)
  }

  function Start(setting: Setting): State
  {
    State(setting.services, setting.marathon, setting.marathon.Values, Idle, seq(setting.workers, _ => Ready))
  }

  ghost function Steps(setting: Setting, s: State, actions: seq<Action>): State
  {
    if actions == [] then s
    else Next(setting, Steps(setting, s, actions[..|actions| - 1]), actions[|actions| - 1])
  }

  /** The state after a run. */
  ghost function After(setting: Setting, run: seq<Action>): State
  {
    Steps(setting, Start(setting), run)
  }

  /** The state after the first `i` actions of a run. */
  ghost function At(setting: Setting, run: seq<Action>, i: nat): State
    requires i <= |run|
  {
    After(setting, run[..i])
  }

  /** The start of a run. */
  predicate Regular(setting: Setting) { AllSane(setting, setting.marathon) && Keyed(setting.services) }

  /** No task ID continues another, and what is registered in the ID space of a task
      when the run begins is that task's. */
  predicate Undisputed(setting: Setting) { AllApart(setting.universe) && Tidy(setting.services, setting.universe) }

  // ---- the invariant --------------------------------------------------------

  ghost predicate AllExplained(setting: Setting, shown: set<App>, rs: seq<Registration>)
  {
    forall r :: r in rs ==> Explained(setting, shown, r)
  }

  /** Service was seen in the registry at some time. */
  ghost predicate Seen(setting: Setting, shown: set<App>, e: Service)
  {
    exists r :: Known(setting, shown, r) && ServiceOf(r) == e
  }

  ghost predicate AllSeen(setting: Setting, shown: set<App>, list: seq<Service>)
  {
    forall e :: e in list ==> Seen(setting, shown, e)
  }

  predicate Doomed(apps: seq<App>, e: Service)
  {
    Owner(e.tags).Some? ==> Owner(e.tags).value !in Running(apps)
  }

  ghost predicate SyncInvariant(setting: Setting, shown: set<App>, sync: SyncState)
  {
    match sync
    case Idle => true
    case Listing(apps, list) => (forall a :: a in apps ==> a in shown) && AllSeen(setting, shown, list)
    case Registering(apps, list, todo, pending) =>
      && AllSeen(setting, shown, list) && AllExplained(setting, shown, pending)
      && forall o :: o in todo ==> Registrable(shown, o)
    case Judging(apps, rest) => AllSeen(setting, shown, rest)
    case Condemned(apps, rest, service) => AllSeen(setting, shown, [service] + rest) && Doomed(apps, service)
  }

  ghost predicate WorkerInvariant(setting: Setting, shown: set<App>, w: WorkerState)
  {
    match w
    case Ready => true
    case Putting(pending) => AllExplained(setting, shown, pending)
    case Finding(task, found) => AllSeen(setting, shown, found) && forall e :: e in found ==> OwnerTag(task) in e.tags
    case Removing(task, found) => AllSeen(setting, shown, found) && forall e :: e in found ==> OwnerTag(task) in e.tags
  }

  ghost predicate RegistryInvariant(setting: Setting, shown: set<App>, s: Services)
  {
    forall id :: id in s ==> s[id].id == id && Known(setting, shown, s[id])
  }

  ghost predicate Invariant(setting: Setting, s: State)
  {
    && AllSane(setting, s.marathon) && s.marathon.Values <= s.shown
    && (forall a :: a in s.shown ==> Sane(setting, a))
    && RegistryInvariant(setting, s.shown, s.services)
    && SyncInvariant(setting, s.shown, s.sync)
    && forall k :: 0 <= k < |s.workers| ==> WorkerInvariant(setting, s.shown, s.workers[k])
  }

  lemma ExplainedStays(setting: Setting, shown: set<App>, shown': set<App>)
    requires shown <= shown'
    ensures forall r :: Explained(setting, shown, r) ==> Explained(setting, shown', r)
    ensures forall e :: Seen(setting, shown, e) ==> Seen(setting, shown', e)
  {
    forall r | Explained(setting, shown, r) ensures Explained(setting, shown', r) {
      var o, dns :| Registrable(shown, o) && MadeFor(setting, o, dns, r);
      assert Registrable(shown', o);
    }
    forall e | Seen(setting, shown, e) ensures Seen(setting, shown', e) {
      var r :| Known(setting, shown, r) && ServiceOf(r) == e;
      assert Known(setting, shown', r);
    }
  }

  lemma RegistryStays(setting: Setting, shown: set<App>, shown': set<App>, s: Services)
    requires shown <= shown' && RegistryInvariant(setting, shown, s)
    ensures RegistryInvariant(setting, shown', s)
  {
    ExplainedStays(setting, shown, shown');
  }

  lemma SyncStays(setting: Setting, shown: set<App>, shown': set<App>, sync: SyncState)
    requires shown <= shown' && SyncInvariant(setting, shown, sync)
    ensures SyncInvariant(setting, shown', sync)
  {
    ExplainedStays(setting, shown, shown');
  }

  lemma WorkerStays(setting: Setting, shown: set<App>, shown': set<App>, w: WorkerState)
    requires shown <= shown' && WorkerInvariant(setting, shown, w)
    ensures WorkerInvariant(setting, shown', w)
  {
    ExplainedStays(setting, shown, shown');
  }

  lemma MarathonStepKeeps(setting: Setting, s: State, marathon: Applications)
    requires Invariant(setting, s) && AllSane(setting, marathon)
    ensures Invariant(setting, s.(marathon := marathon, shown := s.shown + marathon.Values))
  {
    var shown := s.shown + marathon.Values;
    forall a | a in shown ensures Sane(setting, a) {
      if a !in s.shown {
        var id :| id in marathon && marathon[id] == a;
      }
    }
    RegistryStays(setting, s.shown, shown, s.services);
    SyncStays(setting, s.shown, shown, s.sync);
    forall k | 0 <= k < |s.workers| ensures WorkerInvariant(setting, shown, s.workers[k]) {
      WorkerStays(setting, s.shown, shown, s.workers[k]);
    }
  }

  lemma OrderIsExplained(setting: Setting, shown: set<App>, o: Order, dns: map<string, string>)
    requires Registrable(shown, o) && NamedInRange(o.app, o.task)
    ensures AllExplained(setting, shown, RegistrationsOf(setting.config, dns, o.task, o.app))
  {
    forall r | r in RegistrationsOf(setting.config, dns, o.task, o.app) ensures Explained(setting, shown, r) {
      assert MadeFor(setting, o, dns, r);
    }
  }

  lemma PutKeeps(setting: Setting, shown: set<App>, s: Services, pending: seq<Registration>, ok: bool)
    requires RegistryInvariant(setting, shown, s) && pending != [] && AllExplained(setting, shown, pending)
    ensures RegistryInvariant(setting, shown, Put(s, pending[0], ok)) && AllExplained(setting, shown, pending[1..])
  {
    var r := pending[0];
    assert r in pending && Known(setting, shown, r);
    forall id | id in Put(s, r, ok) ensures Put(s, r, ok)[id].id == id && Known(setting, shown, Put(s, r, ok)[id]) {
      if id != r.id || !ok {
        assert id in s;
      }
    }
    assert forall r :: r in pending[1..] ==> r in pending;
  }

  lemma DropKeeps(setting: Setting, shown: set<App>, s: Services, e: Service, ok: bool)
    requires RegistryInvariant(setting, shown, s)
    ensures RegistryInvariant(setting, shown, Drop(s, e, ok))
  {
  }

  lemma SeenOneMore(setting: Setting, shown: set<App>, list: seq<Service>, s: Services, r: Registration)
    requires AllSeen(setting, shown, list) && RegistryInvariant(setting, shown, s) && Answerable(setting, shown, s, r)
    ensures AllSeen(setting, shown, list + [ServiceOf(r)])
  {
    assert Known(setting, shown, r);
  }

  lemma SeenParts(setting: Setting, shown: set<App>, list: seq<Service>)
    requires AllSeen(setting, shown, list) && list != []
    ensures AllSeen(setting, shown, list[1..]) && AllSeen(setting, shown, [list[0]] + list[1..])
  {
    assert list == [list[0]] + list[1..];
  }

  lemma SyncStepKeeps(setting: Setting, s: State, a: Action)
    requires RegistryInvariant(setting, s.shown, s.services) && s.marathon.Values <= s.shown
    requires SyncInvariant(setting, s.shown, s.sync)
    ensures var s' := SyncStep(setting, s, a);
            && RegistryInvariant(setting, s.shown, s'.services)
            && SyncInvariant(setting, s.shown, s'.sync)
            && s' == s.(services := s'.services, sync := s'.sync)
  {
    match s.sync
    case Idle =>
    case Listing(apps, list) => ListingKeeps(setting, s, a);
    case Registering(apps, list, todo, pending) => RegisteringKeeps(setting, s, a);
    case Judging(apps, rest) => JudgingKeeps(setting, s, a);
    case Condemned(apps, rest, service) => CondemnedKeeps(setting, s, a);
  }

  lemma JudgingKeeps(setting: Setting, s: State, a: Action)
    requires SyncInvariant(setting, s.shown, s.sync) && s.sync.Judging?
    ensures var s' := SyncStep(setting, s, a);
            s' == s.(sync := s'.sync) && SyncInvariant(setting, s.shown, s'.sync)
  {
    if a.Judge? && s.sync.rest != [] {
      SeenParts(setting, s.shown, s.sync.rest);
    }
  }

  lemma CondemnedKeeps(setting: Setting, s: State, a: Action)
    requires RegistryInvariant(setting, s.shown, s.services)
    requires SyncInvariant(setting, s.shown, s.sync) && s.sync.Condemned?
    ensures var s' := SyncStep(setting, s, a);
            && RegistryInvariant(setting, s.shown, s'.services)
            && SyncInvariant(setting, s.shown, s'.sync)
            && s' == s.(services := s'.services, sync := s'.sync)
  {
    if a.SyncDeregisters? {
      assert forall e :: e in s.sync.rest ==> e in [s.sync.service] + s.sync.rest;
      DropKeeps(setting, s.shown, s.services, s.sync.service, a.ok);
    }
  }

  lemma ListingKeeps(setting: Setting, s: State, a: Action)
    requires RegistryInvariant(setting, s.shown, s.services)
    requires SyncInvariant(setting, s.shown, s.sync) && s.sync.Listing?
    ensures var s' := SyncStep(setting, s, a);
            s' == s.(sync := s'.sync) && SyncInvariant(setting, s.shown, s'.sync)
  {
    match a
    case ListService(r) => ListServiceKeeps(setting, s, r);
    case StartRegistering => StartKeeps(setting, s);
    case SyncEnds =>
    case _ => assert SyncStep(setting, s, a) == s;
  }

  lemma ListServiceKeeps(setting: Setting, s: State, r: Registration)
    requires RegistryInvariant(setting, s.shown, s.services)
    requires SyncInvariant(setting, s.shown, s.sync) && s.sync.Listing?
    ensures var s' := SyncStep(setting, s, ListService(r));
            s' == s.(sync := s'.sync) && SyncInvariant(setting, s.shown, s'.sync)
  {
    if Answerable(setting, s.shown, s.services, r) {
      SeenOneMore(setting, s.shown, s.sync.list, s.services, r);
    }
  }

  lemma StartKeeps(setting: Setting, s: State)
    requires SyncInvariant(setting, s.shown, s.sync) && s.sync.Listing?
    ensures var s' := SyncStep(setting, s, StartRegistering);
            s' == s.(sync := s'.sync) && SyncInvariant(setting, s.shown, s'.sync)
  {
    TodoMembers(s.sync.apps, s.sync.list);
  }

  lemma RegisteringKeeps(setting: Setting, s: State, a: Action)
    requires RegistryInvariant(setting, s.shown, s.services)
    requires SyncInvariant(setting, s.shown, s.sync) && s.sync.Registering?
    ensures var s' := SyncStep(setting, s, a);
            && RegistryInvariant(setting, s.shown, s'.services)
            && SyncInvariant(setting, s.shown, s'.sync)
            && s' == s.(services := s'.services, sync := s'.sync)
  {
    match a
    case NextOrder(dns) => NextOrderKeeps(setting, s, dns);
    case SyncPuts(ok) => SyncPutsKeeps(setting, s, ok);
    case _ =>
  }

  lemma SyncPutsKeeps(setting: Setting, s: State, ok: bool)
    requires RegistryInvariant(setting, s.shown, s.services)
    requires SyncInvariant(setting, s.shown, s.sync) && s.sync.Registering?
    ensures var s' := SyncStep(setting, s, SyncPuts(ok));
            && RegistryInvariant(setting, s.shown, s'.services)
            && SyncInvariant(setting, s.shown, s'.sync)
            && s' == s.(services := s'.services, sync := s'.sync)
  {
    if s.sync.pending != [] {
      PutKeeps(setting, s.shown, s.services, s.sync.pending, ok);
    }
  }

  lemma NextOrderKeeps(setting: Setting, s: State, dns: map<string, string>)
    requires SyncInvariant(setting, s.shown, s.sync) && s.sync.Registering?
    ensures var s' := SyncStep(setting, s, NextOrder(dns));
            SyncInvariant(setting, s.shown, s'.sync) && s' == s.(sync := s'.sync)
  {
    var todo := s.sync.todo;
    if todo != [] && NamedInRange(todo[0].app, todo[0].task) {
      assert forall o :: o in todo[1..] ==> o in todo;
      OrderIsExplained(setting, s.shown, todo[0], dns);
    }
  }

  ghost predicate WorkerKept(setting: Setting, shown: set<App>, w: WorkerState, s: Services)
  {
    RegistryInvariant(setting, shown, s) && WorkerInvariant(setting, shown, w)
  }

  lemma ReadyKeeps(setting: Setting, shown: set<App>, s: Services, marathon: Applications, a: Action)
    requires RegistryInvariant(setting, shown, s) && marathon.Values <= shown
    ensures var (w', s') := WorkerStep(setting, shown, s, marathon, Ready, a); WorkerKept(setting, shown, w', s')
  {
    if a.HealthEvent? {
      var order := ToRegister(a.change, if a.answered then marathon else map[]);
      if order.Some? && NamedInRange(order.value.app, order.value.task) {
        assert order.value.app in marathon.Values;
        OrderIsExplained(setting, shown, order.value, a.dns);
      }
    }
  }

  lemma PuttingKeeps(setting: Setting, shown: set<App>, s: Services, marathon: Applications, w: WorkerState, a: Action)
    requires WorkerKept(setting, shown, w, s) && w.Putting?
    ensures var (w', s') := WorkerStep(setting, shown, s, marathon, w, a); WorkerKept(setting, shown, w', s')
  {
    if a.WorkerPuts? && w.pending != [] {
      PutKeeps(setting, shown, s, w.pending, a.ok);
    }
  }

  lemma FindingKeeps(setting: Setting, shown: set<App>, s: Services, marathon: Applications, w: WorkerState, a: Action)
    requires WorkerKept(setting, shown, w, s) && w.Finding?
    ensures var (w', s') := WorkerStep(setting, shown, s, marathon, w, a); WorkerKept(setting, shown, w', s')
  {
    if a.WorkerFinds? && Answerable(setting, shown, s, a.r) {
      SeenOneMore(setting, shown, w.found, s, a.r);
    }
  }

  lemma RemovingKeeps(setting: Setting, shown: set<App>, s: Services, marathon: Applications, w: WorkerState, a: Action)
    requires WorkerKept(setting, shown, w, s) && w.Removing?
    ensures var (w', s') := WorkerStep(setting, shown, s, marathon, w, a); WorkerKept(setting, shown, w', s')
  {
    if a.WorkerDeregisters? && w.found != [] {
      DropKeeps(setting, shown, s, w.found[0], a.ok);
      SeenParts(setting, shown, w.found);
    }
  }

  lemma WorkerStepKeeps(setting: Setting, shown: set<App>, s: Services, marathon: Applications, w: WorkerState,
                        a: Action)
    requires WorkerKept(setting, shown, w, s) && marathon.Values <= shown
    ensures var (w', s') := WorkerStep(setting, shown, s, marathon, w, a); WorkerKept(setting, shown, w', s')
  {
    match w
    case Ready => ReadyKeeps(setting, shown, s, marathon, a);
    case Putting(_) => PuttingKeeps(setting, shown, s, marathon, w, a);
    case Finding(_, _) => FindingKeeps(setting, shown, s, marathon, w, a);
    case Removing(_, _) => RemovingKeeps(setting, shown, s, marathon, w, a);
  }

  lemma NextKeeps(setting: Setting, s: State, a: Action)
    requires Invariant(setting, s)
    ensures Invariant(setting, Next(setting, s, a))
  {
    if a.MarathonChanges? {
      if AllSane(setting, a.marathon) {
        MarathonStepKeeps(setting, s, a.marathon);
      }
    } else if OfWorker(a) {
      if a.k < |s.workers| {
        WorkerStepKeeps(setting, s.shown, s.services, s.marathon, s.workers[a.k], a);
      }
    } else {
      SyncStepKeeps(setting, s, a);
    }
  }

  /** The invariant holds in every state of every run. */
  lemma {:induction false} Always(setting: Setting, run: seq<Action>)
    requires Regular(setting)
    ensures Invariant(setting, After(setting, run))
  {
    if run != [] {
      Always(setting, run[..|run| - 1]);
      NextKeeps(setting, After(setting, run[..|run| - 1]), run[|run| - 1]);
    }
  }

  // ---- owners ---------------------------------------------------------------

  lemma ExplainedHasOwner(setting: Setting, shown: set<App>, r: Registration) returns (t: TaskId)
    requires Explained(setting, shown, r) && forall a :: a in shown ==> Sane(setting, a)
    ensures t in setting.universe && Owner(r.tags) == Some(t) && Begins(r.id, t) && SingleOwner(r.tags)
  {
    var o, dns :| Registrable(shown, o) && MadeFor(setting, o, dns, r);
    assert Sane(setting, o.app);
    RegistrationNamesItsOwner(setting.config, dns, o.task, o.app, r);
    t := o.task.id;
  }

  /** Whatever happens, one ID never changes its owner. */
  lemma OneOwner(setting: Setting, shown: set<App>, r: Registration, r': Registration)
    requires Undisputed(setting) && forall a :: a in shown ==> Sane(setting, a)
    requires Known(setting, shown, r) && Known(setting, shown, r') && r.id == r'.id
    ensures Owner(r.tags) == Owner(r'.tags)
  {
    if Explained(setting, shown, r) {
      var t := ExplainedHasOwner(setting, shown, r);
      if Explained(setting, shown, r') {
        var t' := ExplainedHasOwner(setting, shown, r');
        if t != t' {
          BeginsWithOne(r.id, t, t');
        }
      }
    } else if Explained(setting, shown, r') {
      var t' := ExplainedHasOwner(setting, shown, r');
    }
  }

  lemma SeenHasOwnerOfEntry(setting: Setting, s: State, e: Service)
    requires Undisputed(setting) && Invariant(setting, s) && Seen(setting, s.shown, e) && e.id in s.services
    ensures Owner(e.tags) == Owner(s.services[e.id].tags)
  {
    var r :| Known(setting, s.shown, r) && ServiceOf(r) == e;
    OneOwner(setting, s.shown, r, s.services[e.id]);
  }

  // ---- runs -----------------------------------------------------------------

  lemma OneStep(setting: Setting, run: seq<Action>, i: nat)
    requires i < |run|
    ensures At(setting, run, i + 1) == Next(setting, At(setting, run, i), run[i])
  {
    assert run[..i + 1][..i] == run[..i];
  }

  lemma {:induction false} ShownBefore(setting: Setting, run: seq<Action>, n: nat, app: App) returns (i: nat)
    requires n <= |run| && app in At(setting, run, n).shown
    ensures i <= n && app in At(setting, run, i).marathon.Values
  {
    if n == 0 {
      i := 0;
    } else {
      OneStep(setting, run, n - 1);
      if app in At(setting, run, n - 1).shown {
        i := ShownBefore(setting, run, n - 1, app);
      } else {
        i := n;
      }
    }
  }

  /** No phantoms: whatever is registered at any time of any run, and was not so from
      the start, was made for a task that Marathon had shown as healthy by then. */
  lemma NoPhantoms(setting: Setting, run: seq<Action>, n: nat, id: ServiceId)
    returns (i: nat, o: Order, dns: map<string, string>)
    requires Regular(setting) && n <= |run| && id in At(setting, run, n).services
    requires !(id in setting.services && setting.services[id] == At(setting, run, n).services[id])
    ensures i <= n && o.app in At(setting, run, i).marathon.Values && o.task in o.app.tasks
    ensures IsConsulApp(o.app) && Healthy(o.task) && NamedInRange(o.app, o.task)
    ensures At(setting, run, n).services[id] in RegistrationsOf(setting.config, dns, o.task, o.app)
  {
    var s := At(setting, run, n);
    Always(setting, run[..n]);
    o, dns :| Registrable(s.shown, o) && MadeFor(setting, o, dns, s.services[id]);
    i := ShownBefore(setting, run, n, o.app);
  }

  /** The sync pass gives up a service: it has no owner, or the owner is not in the
      pass's list of applications, and Marathon, asked once more, does not answer or does
      not run it. */
  ghost predicate GivesUp(s: State, a: Action, e: Service)
  {
    && a.Judge? && s.sync.Judging? && s.sync.rest != [] && s.sync.rest[0] == e
    && match Owner(e.tags)
       case None => true
       case Some(t) => t !in Running(s.sync.apps) && (a.answered ==> !Live(s.marathon, t))
  }

  /** At step `j` the pass gave up a service of the task. */
  ghost predicate CondemnedAt(setting: Setting, run: seq<Action>, j: nat, t: TaskId)
    requires j < |run|
  {
    exists e :: GivesUp(At(setting, run, j), run[j], e) && Owner(e.tags) == Some(t)
  }

  /** At step `j` a worker was told that the task came to an end. */
  predicate EndedAt(run: seq<Action>, j: nat, t: TaskId)
    requires j < |run|
  {
    run[j].StatusEvent? && run[j].update.task == t && Terminal(run[j].update.status)
  }

  /** The pass gives up a service exactly when it has no owner, or when its owner is
      neither in the pass's list nor, as far as Marathon answers, live. */
  lemma JudgementIff(setting: Setting, s: State, answered: bool)
    requires AllSane(setting, s.marathon) && s.sync.Judging? && s.sync.rest != []
    requires Judgeable(s.sync.apps, s.sync.rest[0])
    ensures Next(setting, s, Judge(answered)).sync.Condemned? <==>
            match Owner(s.sync.rest[0].tags)
            case None => true
            case Some(t) => t !in Running(s.sync.apps) && (answered ==> !Live(s.marathon, t))
  {
    var owner := Owner(s.sync.rest[0].tags);
    if owner.Some? && '.' in owner.value {
      RecheckFindsLiveTasks(setting, s.marathon, owner.value);
    }
  }

  /** The pass has made no step since step `j`. */
  ghost predicate SameSince(setting: Setting, run: seq<Action>, j: nat, n: nat)
    requires j < n <= |run|
  {
    forall m :: j < m <= n ==> At(setting, run, m).sync == At(setting, run, n).sync
  }

  /** How the sync pass came to a condemned service. */
  lemma {:induction false} WasJudged(setting: Setting, run: seq<Action>, n: nat) returns (j: nat)
    requires Regular(setting) && n <= |run| && At(setting, run, n).sync.Condemned?
    ensures j < n && GivesUp(At(setting, run, j), run[j], At(setting, run, n).sync.service)
    ensures SameSince(setting, run, j, n)
  {
    JudgedLast(setting, run, n);
    j := n - 1;
    if At(setting, run, n - 1).sync == At(setting, run, n).sync {
      j := WasJudged(setting, run, n - 1);
      SameOneMore(setting, run, j, n);
    }
  }

  lemma SameOneMore(setting: Setting, run: seq<Action>, j: nat, n: nat)
    requires j < n - 1 < n <= |run| && SameSince(setting, run, j, n - 1)
    requires At(setting, run, n - 1).sync == At(setting, run, n).sync
    ensures SameSince(setting, run, j, n)
  {
    forall m | j < m <= n ensures At(setting, run, m).sync == At(setting, run, n).sync {
      assert m < n ==> At(setting, run, m).sync == At(setting, run, n - 1).sync;
    }
  }

  lemma JudgedLast(setting: Setting, run: seq<Action>, n: nat)
    requires Regular(setting) && n <= |run| && At(setting, run, n).sync.Condemned?
    ensures n > 0
    ensures At(setting, run, n - 1).sync == At(setting, run, n).sync ||
            GivesUp(At(setting, run, n - 1), run[n - 1], At(setting, run, n).sync.service)
  {
    assert n > 0;
    OneStep(setting, run, n - 1);
    Always(setting, run[..n - 1]);
    if At(setting, run, n - 1).sync != At(setting, run, n).sync {
      JustJudged(setting, At(setting, run, n - 1), run[n - 1]);
    }
  }

  lemma JustJudged(setting: Setting, s: State, a: Action)
    requires AllSane(setting, s.marathon) && Next(setting, s, a).sync.Condemned? && Next(setting, s, a).sync != s.sync
    ensures GivesUp(s, a, Next(setting, s, a).sync.service)
  {
    OnlyJudgeCondemns(setting, s, a);
    JudgementIff(setting, s, a.answered);
  }

  lemma OnlyJudgeCondemns(setting: Setting, s: State, a: Action)
    requires Next(setting, s, a).sync.Condemned? && Next(setting, s, a).sync != s.sync
    ensures a.Judge? && s.sync.Judging? && s.sync.rest != [] && Next(setting, s, a).sync.service == s.sync.rest[0]
    ensures Judgeable(s.sync.apps, s.sync.rest[0])
  {
  }

  function Deregisters(w: WorkerState): Option<TaskId>
  {
    match w
    case Finding(task, _) => Some(task)
    case Removing(task, _) => Some(task)
    case _ => None
  }

  /** How a worker came to deregister a task. */
  lemma {:induction false} WasTold(setting: Setting, run: seq<Action>, n: nat, k: nat, t: TaskId) returns (j: nat)
    requires n <= |run| && k < |At(setting, run, n).workers|
    requires Deregisters(At(setting, run, n).workers[k]) == Some(t)
    ensures j < n && EndedAt(run, j, t)
  {
    assert n > 0;
    OneStep(setting, run, n - 1);
    var s := At(setting, run, n - 1);
    SameWorkers(setting, s, run[n - 1]);
    if Deregisters(s.workers[k]) == Some(t) {
      j := WasTold(setting, run, n - 1, k, t);
    } else {
      j := n - 1;
      OnlyStatusTells(setting, s, run[j], k);
    }
  }

  lemma SameWorkers(setting: Setting, s: State, a: Action)
    ensures |Next(setting, s, a).workers| == |s.workers|
  {
  }

  lemma OnlyStatusTells(setting: Setting, s: State, a: Action, k: nat)
    requires k < |s.workers| && Deregisters(s.workers[k]) != Deregisters(Next(setting, s, a).workers[k])
    requires Deregisters(Next(setting, s, a).workers[k]).Some?
    ensures a.StatusEvent? && Some(a.update.task) == Deregisters(Next(setting, s, a).workers[k]) &&
            Terminal(a.update.status)
  {
  }

  lemma WhoRemoves(setting: Setting, s: State, a: Action, id: ServiceId)
    requires id in s.services && id !in Next(setting, s, a).services
    ensures (a.SyncDeregisters? && s.sync.Condemned? && s.sync.service.id == id) ||
            (a.WorkerDeregisters? && a.k < |s.workers| && s.workers[a.k].Removing? &&
             s.workers[a.k].found != [] && s.workers[a.k].found[0].id == id)
  {
  }

  // ---- every removal has a reason -------------------------------------------

  lemma CondemnedIsSeen(setting: Setting, shown: set<App>, sync: SyncState)
    requires SyncInvariant(setting, shown, sync) && sync.Condemned?
    ensures Seen(setting, shown, sync.service)
  {
    assert sync.service in [sync.service] + sync.rest;
  }

  /** A sync pass removes an entry only after it gave up the service that it had listed
      under that ID: one without owner, or whose task is neither in its list of
      applications nor live in Marathon when the re-check is answered. */
  lemma SyncRemovesOnlyTheJudged(setting: Setting, run: seq<Action>, n: nat, id: ServiceId) returns (j: nat, e: Service)
    requires Regular(setting) && n < |run| && run[n].SyncDeregisters?
    requires id in At(setting, run, n).services && id !in At(setting, run, n + 1).services
    ensures j < n && GivesUp(At(setting, run, j), run[j], e) && e.id == id &&
            Seen(setting, At(setting, run, n).shown, e)
    ensures SameSince(setting, run, j, n)
  {
    OneStep(setting, run, n);
    Always(setting, run[..n]);
    var s := At(setting, run, n);
    WhoRemoves(setting, s, run[n], id);
    CondemnedIsSeen(setting, s.shown, s.sync);
    e := s.sync.service;
    j := WasJudged(setting, run, n);
  }

  /** Where nobody else registers in a task's ID space, that service was the task's: a pass
      never removes the entry of a task that is in its list of applications, or that is
      live when the re-check is answered. */
  lemma SyncSparesTheLive(setting: Setting, run: seq<Action>, n: nat, id: ServiceId, t: TaskId) returns (j: nat)
    requires Regular(setting) && Undisputed(setting) && n < |run| && run[n].SyncDeregisters?
    requires id in At(setting, run, n).services && id !in At(setting, run, n + 1).services
    requires Owner(At(setting, run, n).services[id].tags) == Some(t)
    ensures j < n && CondemnedAt(setting, run, j, t)
    ensures SameSince(setting, run, j, n)
  {
    var e;
    j, e := SyncRemovesOnlyTheJudged(setting, run, n, id);
    Always(setting, run[..n]);
    SeenHasOwnerOfEntry(setting, At(setting, run, n), e);
  }

  /** No entry has two different owner tags when the run begins. */
  predicate OwnersAgree(setting: Setting)
  {
    forall id :: id in setting.services ==> SingleOwner(setting.services[id].tags)
  }

  lemma FoundIsOwned(setting: Setting, s: State, e: Service, t: TaskId)
    requires OwnersAgree(setting) && Invariant(setting, s)
    requires Seen(setting, s.shown, e) && OwnerTag(t) in e.tags
    ensures Owner(e.tags) == Some(t)
  {
    var r :| Known(setting, s.shown, r) && ServiceOf(r) == e;
    if Explained(setting, s.shown, r) {
      var t' := ExplainedHasOwner(setting, s.shown, r);
    }
    SingleOwnerIsFound(e.tags, t);
  }

  lemma FirstIsSeen(setting: Setting, shown: set<App>, w: WorkerState)
    requires WorkerInvariant(setting, shown, w) && w.Removing? && w.found != []
    ensures Seen(setting, shown, w.found[0]) && OwnerTag(w.task) in w.found[0].tags
  {
    assert w.found[0] in w.found;
  }

  /** A worker removes an entry only after an event said that a task ended, and a service
      listed under that ID carried that task's owner tag. */
  lemma WorkersRemoveOnlyTheNamed(setting: Setting, run: seq<Action>, n: nat, id: ServiceId)
    returns (j: nat, e: Service, t: TaskId)
    requires Regular(setting) && n < |run| && run[n].WorkerDeregisters?
    requires id in At(setting, run, n).services && id !in At(setting, run, n + 1).services
    ensures j < n && EndedAt(run, j, t)
    ensures e.id == id && OwnerTag(t) in e.tags && Seen(setting, At(setting, run, n).shown, e)
  {
    OneStep(setting, run, n);
    Always(setting, run[..n]);
    var s := At(setting, run, n);
    WhoRemoves(setting, s, run[n], id);
    var w := s.workers[run[n].k];
    FirstIsSeen(setting, s.shown, w);
    e, t := w.found[0], w.task;
    j := WasTold(setting, run, n, run[n].k, t);
  }

  /** Where owners are undisputed, that task owned the entry. */
  lemma WorkersRemoveOnlyTheEnded(setting: Setting, run: seq<Action>, n: nat, id: ServiceId, t: TaskId) returns (j: nat)
    requires Regular(setting) && Undisputed(setting) && OwnersAgree(setting) && n < |run| && run[n].WorkerDeregisters?
    requires id in At(setting, run, n).services && id !in At(setting, run, n + 1).services
    requires Owner(At(setting, run, n).services[id].tags) == Some(t)
    ensures j < n && EndedAt(run, j, t)
  {
    var e, t';
    j, e, t' := WorkersRemoveOnlyTheNamed(setting, run, n, id);
    Always(setting, run[..n]);
    FoundIsOwned(setting, At(setting, run, n), e, t');
    SeenHasOwnerOfEntry(setting, At(setting, run, n), e);
  }

  /** No pass gives up a service of the task, and no event ends it. */
  ghost predicate Undisturbed(setting: Setting, run: seq<Action>, t: TaskId)
  {
    forall j :: 0 <= j < |run| ==> !EndedAt(run, j, t) && !CondemnedAt(setting, run, j, t)
  }

  lemma StaysOneStep(setting: Setting, run: seq<Action>, i: nat, id: ServiceId, t: TaskId)
    requires Regular(setting) && Undisputed(setting) && OwnersAgree(setting)
    requires Undisturbed(setting, run, t) && i < |run|
    requires id in At(setting, run, i).services && Owner(At(setting, run, i).services[id].tags) == Some(t)
    ensures id in At(setting, run, i + 1).services
  {
    OneStep(setting, run, i);
    if id !in At(setting, run, i + 1).services {
      WhoRemoves(setting, At(setting, run, i), run[i], id);
      if run[i].SyncDeregisters? {
        var j := SyncSparesTheLive(setting, run, i, id, t);
      } else {
        var j := WorkersRemoveOnlyTheEnded(setting, run, i, id, t);
      }
    }
  }

  lemma OwnerStays(setting: Setting, run: seq<Action>, i: nat, id: ServiceId)
    requires Regular(setting) && Undisputed(setting) && i < |run|
    requires id in At(setting, run, i).services && id in At(setting, run, i + 1).services
    ensures Owner(At(setting, run, i + 1).services[id].tags) == Owner(At(setting, run, i).services[id].tags)
  {
    var s, s' := At(setting, run, i), At(setting, run, i + 1);
    Always(setting, run[..i]);
    Always(setting, run[..i + 1]);
    OneStep(setting, run, i);
    ShownGrows(setting, s, run[i]);
    ExplainedStays(setting, s.shown, s'.shown);
    OneOwner(setting, s'.shown, s.services[id], s'.services[id]);
  }

  /** Safety over whole runs: an entry stays, and keeps its owner, unless a pass gives up
      a service of that owner or an event ends it. */
  lemma {:induction false} EntriesStay(setting: Setting, run: seq<Action>, i: nat, n: nat, id: ServiceId, t: TaskId)
    requires Regular(setting) && Undisputed(setting) && OwnersAgree(setting)
    requires Undisturbed(setting, run, t) && i <= n <= |run|
    requires id in At(setting, run, i).services && Owner(At(setting, run, i).services[id].tags) == Some(t)
    ensures id in At(setting, run, n).services && Owner(At(setting, run, n).services[id].tags) == Some(t)
    decreases n - i
  {
    if i < n {
      StaysOneStep(setting, run, i, id, t);
      OwnerStays(setting, run, i, id);
      EntriesStay(setting, run, i + 1, n, id, t);
    }
  }

  /** At this step a re-check of a service of the task goes unanswered. */
  ghost predicate Unanswered(s: State, a: Action, t: TaskId)
  {
    a == Judge(false) && s.sync.Judging? && s.sync.rest != [] && Owner(s.sync.rest[0].tags) == Some(t)
  }

  /** The task is known: Marathon has shown it, or it had an entry when the run began. */
  ghost predicate Appeared(setting: Setting, s: State, t: TaskId)
  {
    || (exists id :: id in setting.services && Owner(setting.services[id].tags) == Some(t))
    || (exists o: Order :: o.app in s.shown && o.task in o.app.tasks && o.task.id == t)
  }

  lemma OwnerAppeared(setting: Setting, s: State, e: Service, t: TaskId)
    requires Invariant(setting, s) && Seen(setting, s.shown, e) && Owner(e.tags) == Some(t)
    ensures Appeared(setting, s, t)
  {
    var r :| Known(setting, s.shown, r) && ServiceOf(r) == e;
    if Explained(setting, s.shown, r) {
      var o, dns :| Registrable(s.shown, o) && MadeFor(setting, o, dns, r);
      assert Sane(setting, o.app);
      RegistrationNamesItsOwner(setting.config, dns, o.task, o.app, r);
    }
  }

  /** A pass gives up only services of tasks that are known. */
  lemma CondemnedAppeared(setting: Setting, run: seq<Action>, j: nat, t: TaskId)
    requires Regular(setting) && j < |run| && CondemnedAt(setting, run, j, t)
    ensures Appeared(setting, At(setting, run, j), t)
  {
    var s := At(setting, run, j);
    var e :| GivesUp(s, run[j], e) && Owner(e.tags) == Some(t);
    Always(setting, run[..j]);
    assert e in s.sync.rest;
    OwnerAppeared(setting, s, e, t);
  }

  /** So a task keeps its registrations, however passes, events and failures interleave,
      if Marathon runs it ever since it first showed it, no event ends it, and no re-check
      of its own services goes unanswered. */
  lemma LiveTasksStayRegistered(setting: Setting, run: seq<Action>, i: nat, n: nat, id: ServiceId, t: TaskId)
    requires Regular(setting) && Undisputed(setting) && OwnersAgree(setting) && i <= n <= |run|
    requires forall j :: 0 <= j < |run| ==> !EndedAt(run, j, t) && !Unanswered(At(setting, run, j), run[j], t)
    requires forall j :: 0 <= j < |run| && Appeared(setting, At(setting, run, j), t) ==>
             Live(At(setting, run, j).marathon, t)
    requires id in At(setting, run, i).services && Owner(At(setting, run, i).services[id].tags) == Some(t)
    ensures id in At(setting, run, n).services && Owner(At(setting, run, n).services[id].tags) == Some(t)
  {
    forall j | 0 <= j < |run| ensures !CondemnedAt(setting, run, j, t) {
      if CondemnedAt(setting, run, j, t) {
        CondemnedAppeared(setting, run, j, t);
      }
    }
    EntriesStay(setting, run, i, n, id, t);
  }

  lemma ShownGrows(setting: Setting, s: State, a: Action)
    ensures s.shown <= Next(setting, s, a).shown
  {
  }
}
