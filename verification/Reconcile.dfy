/** One sync pass: register what the snapshot of the registry misses, deregister
    what Marathon no longer runs. */
module Reconcile {
  import opened Text
  import opened Identity
  import opened Planning
  import opened Registry

  datatype Leadership = Leading | Following | Unknown

  /** What Marathon answers while it does not change; absent answers are errors. */
  datatype Marathon = Marathon(apps: Option<seq<App>>, tasks: map<AppId, seq<Task>>, leadership: Leadership)

  /** A task to register, with its application. */
  datatype Order = Order(task: Task, app: App)

  // ---- what the pass decides ------------------------------------------------

  /** `taskIdsInConsulServices`: registrations found for a task. */
  function Count(services: seq<Service>, task: TaskId): nat
  {
    if services == [] then 0
    else Count(services[..|services| - 1], task) + if Owner(services[|services| - 1].tags) == Some(task) then 1 else 0
  }

  function Running(apps: seq<App>): set<TaskId>
  {
    set i, j | 0 <= i < |apps| && 0 <= j < |apps[i].tasks| :: apps[i].tasks[j].id
  }

  predicate NeedsRegistration(app: App, task: Task, services: seq<Service>)
  {
    IsConsulApp(app) && Count(services, task.id) < IntentsNumber(app) && Healthy(task)
  }

  function TodoOfApp(app: App, tasks: seq<Task>, services: seq<Service>): seq<Order>
  {
    if tasks == [] then []
    else
      var task := tasks[|tasks| - 1];
      TodoOfApp(app, tasks[..|tasks| - 1], services) +
      if NeedsRegistration(app, task, services) then [Order(task, app)] else []
  }

  /** The healthy tasks of consul applications with too few registrations. */
  function Todo(apps: seq<App>, services: seq<Service>): seq<Order>
  {
    if apps == [] then []
    else
      var app := apps[|apps| - 1];
      Todo(apps[..|apps| - 1], services) + TodoOfApp(app, app.tasks, services)
  }

  /** Nobody's service, or one of a task that neither the snapshot of the
      applications nor the latest task list of its application shows. */
  predicate Stale(service: Service, running: set<TaskId>, latest: map<AppId, seq<Task>>)
  {
    match Owner(service.tags)
    case None => true
    case Some(id) =>
      id !in running &&
      !('.' in id && AppIdOf(id) in latest && FindTask(id, latest[AppIdOf(id)]).Some?)
  }

  function StaleOnes(services: seq<Service>, running: set<TaskId>, latest: map<AppId, seq<Task>>): (some: seq<Service>)
    ensures forall s :: s in some <==> s in services && Stale(s, running, latest)
  {
    if services == [] then []
    else
      var last := services[|services| - 1];
      assert forall s :: s in services <==> s == last || s in services[..|services| - 1];
      StaleOnes(services[..|services| - 1], running, latest) + if Stale(last, running, latest) then [last] else []
  }

  /** Go panics on a stale owner without a dot. */
  predicate OwnersHaveDots(services: seq<Service>, running: set<TaskId>)
  {
    forall s :: s in services ==>
      match Owner(s.tags) case None => true case Some(id) => id in running || '.' in id
  }

  /** The same of a registry, for all services that a listing can show. */
  predicate OwnersDotted(s: Services, visible: set<ServiceId>, tag: string, running: set<TaskId>)
  {
    forall id :: id in s && id in visible && tag in s[id].tags ==>
      match Owner(s[id].tags) case None => true case Some(t) => t in running || '.' in t
  }

  predicate AllNamedInRange(apps: seq<App>)
  {
    forall i, j :: 0 <= i < |apps| && 0 <= j < |apps[i].tasks| ==> NamedInRange(apps[i], apps[i].tasks[j])
  }

  predicate OrdersInRange(orders: seq<Order>) { forall o :: o in orders ==> NamedInRange(o.app, o.task) }

  // ---- what the decisions do ------------------------------------------------

  /** What the orders ask to register. */
  function Batches(config: Config, dns: map<string, string>, orders: seq<Order>): (bs: seq<Batch>)
    requires OrdersInRange(orders)
    ensures |bs| == |orders|
    ensures forall i :: 0 <= i < |orders| ==>
            orders[i] in orders && bs[i] == BatchOf(config, dns, orders[i].task, orders[i].app)
  {
    seq(|orders|, i requires 0 <= i < |orders| =>
      assert orders[i] in orders; BatchOf(config, dns, orders[i].task, orders[i].app))
  }

  /** What one task adds, if it needs registration. */
  function OwnBatch(config: Config, dns: map<string, string>, app: App, task: Task, services: seq<Service>): seq<Batch>
    requires NamedInRange(app, task)
  {
    if NeedsRegistration(app, task, services) then [BatchOf(config, dns, task, app)] else []
  }

  function IdsOf(services: seq<Service>): (ids: set<ServiceId>)
    ensures forall id :: id in ids <==> exists s :: s in services && s.id == id
  {
    set s | s in services :: s.id
  }

  function DropAll(s: Services, services: seq<Service>, failing: set<ServiceId>): Services
  {
    s - (IdsOf(services) - failing)
  }

  function Dropped(services: seq<Service>, failing: set<ServiceId>): (n: nat)
    ensures n <= |services|
  {
    if services == [] then 0
    else Dropped(services[..|services| - 1], failing) + if services[|services| - 1].id in failing then 0 else 1
  }

  function TodoBatches(config: Config, dns: map<string, string>, apps: seq<App>, services: seq<Service>): seq<Batch>
    requires AllNamedInRange(apps)
  {
    TodoInRange(apps, services);
    Batches(config, dns, Todo(apps, services))
  }

  /** The registry after a pass over a given snapshot. */
  function AfterSync(config: Config, dns: map<string, string>, failRegister: set<ServiceId>,
                     failDeregister: set<ServiceId>, s: Services, apps: seq<App>, services: seq<Service>,
                     latest: map<AppId, seq<Task>>): Services
    requires AllNamedInRange(apps)
  {
    DropAll(PutAll(s, Planned(TodoBatches(config, dns, apps, services)), failRegister),
            StaleOnes(services, Running(apps), latest), failDeregister)
  }

  // ---- what the counters of a pass count ------------------------------------

  /** The listed entries that name the task as their owner. */
  function OwnedIds(s: Services, visible: set<ServiceId>, tag: string, t: TaskId): set<ServiceId>
  {
    set id | id in s && id in visible && tag in s[id].tags && Owner(s[id].tags) == Some(t)
  }

  /** The places of the healthy tasks of consul applications that own fewer listed entries
      than their application asks for. */
  function Lacking(apps: seq<App>, s: Services, visible: set<ServiceId>, tag: string): set<(nat, nat)>
  {
    set i: nat, j: nat |
      i < |apps| && j < |apps[i].tasks| && IsConsulApp(apps[i]) && Healthy(apps[i].tasks[j]) &&
      |OwnedIds(s, visible, tag, apps[i].tasks[j].id)| < IntentsNumber(apps[i]) :: (i, j)
  }

  predicate HasTask(tasks: seq<Task>, t: TaskId) { exists u :: u in tasks && u.id == t }

  /** The listed entries that have no owner, or one that neither the applications nor the
      latest tasks of its application show. */
  function StaleIds(s: Services, visible: set<ServiceId>, tag: string, apps: seq<App>, latest: map<AppId, seq<Task>>)
    : set<ServiceId>
  {
    set id | id in s && id in visible && tag in s[id].tags &&
             match Owner(s[id].tags)
             case None => true
             case Some(t) => !(exists app :: app in apps && HasTask(app.tasks, t)) &&
                             !('.' in t && AppIdOf(t) in latest && HasTask(latest[AppIdOf(t)], t))
  }

  /** Those of them whose host resolves and whose registrations all reach their agents. */
  function LackingWell(config: Config, dns: map<string, string>, failing: set<ServiceId>, apps: seq<App>, s: Services,
                       visible: set<ServiceId>): set<(nat, nat)>
    requires AllNamedInRange(apps)
  {
    set ij | ij in Lacking(apps, s, visible, config.tag) &&
             var app, task := apps[ij.0], apps[ij.0].tasks[ij.1];
             task.host in dns && Reaches(task, Intents(app, task, config.separator), failing)
  }

  predicate Reaches(task: Task, intents: seq<Intent>, failing: set<ServiceId>)
  {
    forall i :: 0 <= i < |intents| ==> ServiceIdOf(task.id, intents[i].name, intents[i].port) !in failing
  }

  /** What the four counters of a pass count. */
  predicate Counted(config: Config, dns: map<string, string>, failRegister: set<ServiceId>,
                    failDeregister: set<ServiceId>, apps: seq<App>, latest: map<AppId, seq<Task>>, s: Services,
                    visible: set<ServiceId>, outcome: Outcome)
    requires AllNamedInRange(apps)
  {
    var stale := StaleIds(s, visible, config.tag, apps, latest);
    && outcome.Synced?
    && outcome.registered + outcome.registerErrors == |Lacking(apps, s, visible, config.tag)|
    && outcome.registered == |LackingWell(config, dns, failRegister, apps, s, visible)|
    && outcome.deregistered + outcome.deregisterErrors == |stale|
    && outcome.deregistered == |stale - failDeregister|
  }

  // ---- the imperative pass --------------------------------------------------

  datatype Outcome =
    | Skipped
    | Failed
    | Synced(registered: nat, registerErrors: nat, deregistered: nat, deregisterErrors: nat)

  /** A pass is its registry and its four counters: successes and errors add up to
      the tasks to register, and to the stale services. */
  predicate PassResult(config: Config, dns: map<string, string>, failRegister: set<ServiceId>,
                       failDeregister: set<ServiceId>, apps: seq<App>, services: seq<Service>,
                       latest: map<AppId, seq<Task>>,
                       s: Services, s': Services, outcome: Outcome)
    requires AllNamedInRange(apps)
  {
    var batches, stale := TodoBatches(config, dns, apps, services), StaleOnes(services, Running(apps), latest);
    && outcome.Synced?
    && s' == AfterSync(config, dns, failRegister, failDeregister, s, apps, services, latest)
    && outcome.registered == Succeeding(batches, failRegister)
    && outcome.registered + outcome.registerErrors == |Todo(apps, services)|
    && outcome.deregistered == Dropped(stale, failDeregister)
    && outcome.deregistered + outcome.deregisterErrors == |stale|
  }

  /** The registry and the counters after some tasks of an application. */
  predicate TasksDone(config: Config, dns: map<string, string>, failing: set<ServiceId>, app: App, tasks: seq<Task>,
                      services: seq<Service>, s: Services, s': Services, registered: nat, errors: nat)
  {
    && OrdersInRange(TodoOfApp(app, tasks, services))
    && Registered(Batches(config, dns, TodoOfApp(app, tasks, services)), failing, s, s', registered, errors)
  }

  class Sync {
    const marathon: Marathon
    const registry: ServiceRegistry
    const force: bool

    constructor (marathon: Marathon, registry: ServiceRegistry, force: bool)
      ensures this.marathon == marathon && this.registry == registry && this.force == force
    {
      this.marathon, this.registry, this.force := marathon, registry, force;
    }

    method TaskIdsInConsulServices(services: seq<Service>) returns (counters: map<TaskId, nat>)
      ensures forall task :: Count(services, task) == if task in counters then counters[task] else 0
    {
      counters := map[];
      for i := 0 to |services|
        invariant forall task :: Count(services[..i], task) == if task in counters then counters[task] else 0
      {
        var owner := Owner(services[i].tags);
        if owner.Some? {
          var n := if owner.value in counters then counters[owner.value] else 0;
          counters := counters[owner.value := n + 1];
        }
        assert services[..i + 1][..i] == services[..i];
      }
      assert services[..|services|] == services;
    }

    method MarathonTaskIdsSet(apps: seq<App>) returns (ids: set<TaskId>)
      ensures ids == Running(apps)
    {
      ids := {};
      for i := 0 to |apps|
        invariant forall id :: id in ids <==>
                  exists k, j :: 0 <= k < i && 0 <= j < |apps[k].tasks| && apps[k].tasks[j].id == id
      {
        for j := 0 to |apps[i].tasks|
          invariant forall id :: id in ids <==>
                      || (exists k, l :: 0 <= k < i && 0 <= l < |apps[k].tasks| && apps[k].tasks[l].id == id)
                      || (exists l :: 0 <= l < j && apps[i].tasks[l].id == id)
        {
          ids := ids + {apps[i].tasks[j].id};
        }
      }
    }

    /** One task of the pass: registered if it lacks registrations and is healthy, and counted. */
    method RegisterIfMissing(task: Task, app: App, counters: map<TaskId, nat>, expected: nat, registered: nat,
                             errors: nat, ghost services: seq<Service>, ghost done: seq<Task>, ghost start: Services)
      returns (registered': nat, errors': nat)
      requires NamedInRange(app, task) && IsConsulApp(app) && expected == IntentsNumber(app) && Keyed(registry.services)
      requires Count(services, task.id) == if task.id in counters then counters[task.id] else 0
      requires TasksDone(registry.config, registry.dns, registry.failRegister, app, done, services,
                         start, registry.services, registered, errors)
      modifies registry`services
      ensures Keyed(registry.services)
      ensures TasksDone(registry.config, registry.dns, registry.failRegister, app, done + [task], services,
                        start, registry.services, registered', errors')
    {
      OneTaskDone(registry.config, registry.dns, registry.failRegister, app, done, task, services,
                  start, registry.services, registered, errors);
      var registrations := if task.id in counters then counters[task.id] else 0;
      if registrations < expected {
        var healthy := IsHealthy(task);
        if healthy {
          var ok := registry.Register(task, app);
          if ok {
            return registered + 1, errors;
          }
          return registered, errors + 1;
        }
      }
      return registered, errors;
    }

    /** The inner loop of `registerAppTasksNotFoundInConsul`. */
    method RegisterTasksOf(app: App, counters: map<TaskId, nat>, ghost services: seq<Service>)
      returns (registered: nat, errors: nat)
      requires IsConsulApp(app) && Keyed(registry.services)
      requires forall task :: Count(services, task) == if task in counters then counters[task] else 0
      requires forall j :: 0 <= j < |app.tasks| ==> NamedInRange(app, app.tasks[j])
      modifies registry`services
      ensures Keyed(registry.services)
      ensures TasksDone(registry.config, registry.dns, registry.failRegister, app, app.tasks, services,
                        old(registry.services), registry.services, registered, errors)
    {
      var expected := IntentsNumber(app);
      registered, errors := 0, 0;
      for j := 0 to |app.tasks|
        invariant Keyed(registry.services)
        invariant TasksDone(registry.config, registry.dns, registry.failRegister, app, app.tasks[..j], services,
                            old(registry.services), registry.services, registered, errors)
      {
        TakeOneMore(app.tasks, j);
        registered, errors := RegisterIfMissing(app.tasks[j], app, counters, expected, registered, errors,
                                                services, app.tasks[..j], old(registry.services));
      }
      assert app.tasks[..|app.tasks|] == app.tasks;
    }

    method RegisterAppTasksNotFoundInConsul(apps: seq<App>, services: seq<Service>)
      returns (registered: nat, errors: nat)
      requires AllNamedInRange(apps) && Keyed(registry.services)
      modifies registry`services
      ensures Keyed(registry.services)
      ensures OrdersInRange(Todo(apps, services))
      ensures Registered(Batches(registry.config, registry.dns, Todo(apps, services)), registry.failRegister,
                         old(registry.services), registry.services, registered, errors)
    {
      ghost var config, dns, failing := registry.config, registry.dns, registry.failRegister;
      var counters := TaskIdsInConsulServices(services);
      registered, errors := 0, 0;
      ghost var batches: seq<Batch> := [];
      for i := 0 to |apps|
        invariant Keyed(registry.services)
        invariant OrdersInRange(Todo(apps[..i], services))
        invariant batches == Batches(config, dns, Todo(apps[..i], services))
        invariant Registered(batches, failing, old(registry.services), registry.services, registered, errors)
      {
        TakeOneMore(apps, i);
        ghost var todo := TodoOfApp(apps[i], apps[i].tasks, services);
        ghost var s := registry.services;
        if IsConsulApp(apps[i]) {
          var n, m := RegisterTasksOf(apps[i], counters, services);
          NextApp(config, dns, apps[..i], apps[i], services);
          ghost var more := Batches(config, dns, todo);
          RegisteredMore(batches, more, failing, old(registry.services), s, registry.services,
                         registered, errors, n, m);
          registered, errors, batches := registered + n, errors + m, batches + more;
        } else {
          NoTodo(apps[i], apps[i].tasks, services);
          NextApp(config, dns, apps[..i], apps[i], services);
        }
      }
      assert apps[..|apps|] == apps;
    }

    method DeregisterConsulServicesNotFoundInMarathon(apps: seq<App>, services: seq<Service>)
      returns (deregistered: nat, errors: nat)
      requires Keyed(registry.services) && OwnersHaveDots(services, Running(apps))
      modifies registry`services
      ensures Keyed(registry.services)
      ensures var stale := StaleOnes(services, Running(apps), marathon.tasks);
              && registry.services == DropAll(old(registry.services), stale, registry.failDeregister)
              && deregistered == Dropped(stale, registry.failDeregister) && deregistered + errors == |stale|
    {
      var running := MarathonTaskIdsSet(apps);
      ghost var failing := registry.failDeregister;
      ghost var stale: seq<Service> := [];
      deregistered, errors := 0, 0;
      for i := 0 to |services|
        invariant Keyed(registry.services)
        invariant stale == StaleOnes(services[..i], running, marathon.tasks)
        invariant registry.services == DropAll(old(registry.services), stale, failing)
        invariant deregistered == Dropped(stale, failing) && deregistered + errors == |stale|
      {
        var service := services[i];
        assert service in services && services[..i + 1][..i] == services[..i];
        var owner, drop := Owner(service.tags), false;
        if owner.None? {
          drop := true;
        } else if owner.value !in running {
          var app := AppIdOf(owner.value);
          var tasks := if app in marathon.tasks then marathon.tasks[app] else [];
          drop := FindTask(owner.value, tasks).None?;
        }
        assert drop <==> Stale(service, running, marathon.tasks);
        if drop {
          DropOneMore(old(registry.services), stale, service, failing);
          stale := stale + [service];
          var ok := registry.Deregister(service);
          if ok {
            deregistered := deregistered + 1;
          } else {
            errors := errors + 1;
          }
        }
      }
      assert services[..|services|] == services;
    }

    /** `syncServices`. */
    method SyncServices(catalogue: Catalogue) returns (outcome: Outcome, ghost snapshot: seq<Service>)
      requires Keyed(registry.services)
      requires marathon.apps.Some? ==> AllNamedInRange(marathon.apps.value)
      requires var listing := Listing(registry.services, catalogue, registry.config.tag);
               marathon.apps.Some? && listing.Some? ==>
                 OwnersDotted(registry.services, listing.value, registry.config.tag, Running(marathon.apps.value))
      modifies registry`services
      ensures Keyed(registry.services)
      ensures outcome.Skipped? <==> !force && marathon.leadership.Following?
      ensures outcome.Synced? <==> (force || marathon.leadership.Leading?) && marathon.apps.Some? &&
                                   Listing(old(registry.services), catalogue, registry.config.tag).Some?
      ensures !outcome.Synced? ==> registry.services == old(registry.services)
      ensures outcome.Synced? ==>
                IsSnapshot(snapshot, old(registry.services),
                           Listing(old(registry.services), catalogue, registry.config.tag).value, registry.config.tag)
      ensures outcome.Synced? ==>
                PassResult(registry.config, registry.dns, registry.failRegister, registry.failDeregister,
                           marathon.apps.value, snapshot, marathon.tasks, old(registry.services), registry.services,
                           outcome)
      ensures outcome.Synced? ==>
                Counted(registry.config, registry.dns, registry.failRegister, registry.failDeregister,
                        marathon.apps.value, marathon.tasks, old(registry.services),
                        Listing(old(registry.services), catalogue, registry.config.tag).value, outcome)
    {
      snapshot := [];
      if !force {
        if marathon.leadership.Unknown? {
          return Failed, snapshot;
        }
        if marathon.leadership.Following? {
          return Skipped, snapshot;
        }
      }
      if marathon.apps.None? {
        return Failed, snapshot;
      }
      var apps := marathon.apps.value;
      var services := registry.GetAllServices(catalogue);
      if services.None? {
        return Failed, snapshot;
      }
      snapshot := services.value;
      ListedOwnersHaveDots(snapshot, registry.services,
                           Listing(registry.services, catalogue, registry.config.tag).value, registry.config.tag,
                           Running(apps));
      var registered, registerErrors := RegisterAppTasksNotFoundInConsul(apps, services.value);
      var deregistered, deregisterErrors := DeregisterConsulServicesNotFoundInMarathon(apps, services.value);
      outcome := Synced(registered, registerErrors, deregistered, deregisterErrors);
      PassIsCounted(registry.config, registry.dns, registry.failRegister, registry.failDeregister, apps,
                    marathon.tasks, old(registry.services), registry.services,
                    Listing(old(registry.services), catalogue, registry.config.tag).value, snapshot, outcome);
    }
  }

  // ---- lemmas about the lists -----------------------------------------------

  lemma ListedOwnersHaveDots(list: seq<Service>, s: Services, visible: set<ServiceId>, tag: string,
                             running: set<TaskId>)
    requires IsSnapshot(list, s, visible, tag) && OwnersDotted(s, visible, tag, running)
    ensures OwnersHaveDots(list, running)
  {
  }

  lemma {:induction false} TodoOfAppMembers(app: App, tasks: seq<Task>, services: seq<Service>)
    ensures forall o :: o in TodoOfApp(app, tasks, services) <==>
                        o.app == app && o.task in tasks && NeedsRegistration(app, o.task, services)
  {
    if tasks != [] {
      var last := tasks[|tasks| - 1];
      TodoOfAppMembers(app, tasks[..|tasks| - 1], services);
      assert forall t :: t in tasks <==> t == last || t in tasks[..|tasks| - 1];
    }
  }

  lemma {:induction false} TodoMembers(apps: seq<App>, services: seq<Service>)
    ensures forall o :: o in Todo(apps, services) <==>
                        o.app in apps && o.task in o.app.tasks && NeedsRegistration(o.app, o.task, services)
  {
    if apps != [] {
      var last := apps[|apps| - 1];
      TodoMembers(apps[..|apps| - 1], services);
      TodoOfAppMembers(last, last.tasks, services);
      assert forall a :: a in apps <==> a == last || a in apps[..|apps| - 1];
    }
  }

  lemma TodoInRange(apps: seq<App>, services: seq<Service>)
    requires AllNamedInRange(apps)
    ensures OrdersInRange(Todo(apps, services))
  {
    TodoMembers(apps, services);
  }

  lemma {:induction false} NoTodo(app: App, tasks: seq<Task>, services: seq<Service>)
    requires !IsConsulApp(app)
    ensures TodoOfApp(app, tasks, services) == []
  {
    if tasks != [] {
      NoTodo(app, tasks[..|tasks| - 1], services);
    }
  }

  lemma NextTask(config: Config, dns: map<string, string>, app: App, tasks: seq<Task>, task: Task,
                 services: seq<Service>)
    requires OrdersInRange(TodoOfApp(app, tasks, services)) && NamedInRange(app, task)
    ensures OrdersInRange(TodoOfApp(app, tasks + [task], services))
    ensures Batches(config, dns, TodoOfApp(app, tasks + [task], services)) ==
            Batches(config, dns, TodoOfApp(app, tasks, services)) + OwnBatch(config, dns, app, task, services)
  {
    assert (tasks + [task])[..|tasks + [task]| - 1] == tasks;
  }

  lemma OneTaskDone(config: Config, dns: map<string, string>, failing: set<ServiceId>, app: App, done: seq<Task>,
                    task: Task, services: seq<Service>, s: Services, s': Services, n: nat, m: nat)
    requires TasksDone(config, dns, failing, app, done, services, s, s', n, m) && NamedInRange(app, task)
    ensures var b := BatchOf(config, dns, task, app);
            var s'' := PutAll(s', b.registrations, failing);
            if !NeedsRegistration(app, task, services) then
              TasksDone(config, dns, failing, app, done + [task], services, s, s', n, m)
            else if b.Succeeds(failing) then
              TasksDone(config, dns, failing, app, done + [task], services, s, s'', n + 1, m)
            else
              TasksDone(config, dns, failing, app, done + [task], services, s, s'', n, m + 1)
  {
    var batches := Batches(config, dns, TodoOfApp(app, done, services));
    NextTask(config, dns, app, done, task, services);
    assert batches + [] == batches;
    RegisteredOneMore(batches, BatchOf(config, dns, task, app), failing, s, s', n, m);
  }

  lemma NextApp(config: Config, dns: map<string, string>, apps: seq<App>, app: App, services: seq<Service>)
    requires OrdersInRange(Todo(apps, services)) && OrdersInRange(TodoOfApp(app, app.tasks, services))
    ensures OrdersInRange(Todo(apps + [app], services))
    ensures Batches(config, dns, Todo(apps + [app], services)) ==
            Batches(config, dns, Todo(apps, services)) + Batches(config, dns, TodoOfApp(app, app.tasks, services))
  {
    assert (apps + [app])[..|apps + [app]| - 1] == apps;
  }

  lemma DropOneMore(s: Services, stale: seq<Service>, service: Service, failing: set<ServiceId>)
    ensures DropAll(s, stale + [service], failing) ==
            if service.id in failing then DropAll(s, stale, failing) else DropAll(s, stale, failing) - {service.id}
    ensures Dropped(stale + [service], failing) == Dropped(stale, failing) + if service.id in failing then 0 else 1
  {
    assert (stale + [service])[..|stale + [service]| - 1] == stale;
    IdsOneMore(stale, service);
  }

  lemma IdsOneMore(list: seq<Service>, e: Service)
    ensures IdsOf(list + [e]) == IdsOf(list) + {e.id}
  {
    assert forall s :: s in list + [e] <==> s in list || s == e;
  }

  // ---- the decisions in terms of the registry -------------------------------

  predicate DistinctIds(list: seq<Service>)
  {
    forall i, j :: 0 <= i < j < |list| ==> list[i].id != list[j].id
  }

  lemma {:induction false} StaleIdsAreDistinct(list: seq<Service>, running: set<TaskId>, latest: map<AppId, seq<Task>>)
    requires DistinctIds(list)
    ensures DistinctIds(StaleOnes(list, running, latest))
  {
    if list != [] {
      var init, last := list[..|list| - 1], list[|list| - 1];
      StaleIdsAreDistinct(init, running, latest);
      forall e | e in StaleOnes(init, running, latest) ensures e.id != last.id {
        var k :| 0 <= k < |init| && init[k] == e;
      }
    }
  }

  lemma {:induction false} DistinctIdsCount(list: seq<Service>, failing: set<ServiceId>)
    requires DistinctIds(list)
    ensures |IdsOf(list)| == |list|
    ensures Dropped(list, failing) == |IdsOf(list) - failing|
  {
    if list != [] {
      var init, last := list[..|list| - 1], list[|list| - 1];
      DistinctIdsCount(init, failing);
      OneMoreDropped(init, last, failing);
      assert list == init + [last];
    }
  }

  lemma OneMoreDropped(list: seq<Service>, e: Service, failing: set<ServiceId>)
    requires forall f :: f in list ==> f.id != e.id
    ensures |IdsOf(list + [e])| == |IdsOf(list)| + 1
    ensures |IdsOf(list + [e]) - failing| == |IdsOf(list) - failing| + if e.id in failing then 0 else 1
  {
    IdsOneMore(list, e);
    MoreDropped(IdsOf(list), e.id, failing);
  }

  lemma MoreDropped(ids: set<ServiceId>, id: ServiceId, failing: set<ServiceId>)
    requires id !in ids
    ensures |ids + {id}| == |ids| + 1
    ensures |ids + {id} - failing| == |ids - failing| + if id in failing then 0 else 1
  {
    if id in failing {
      assert ids + {id} - failing == ids - failing;
    } else {
      assert ids + {id} - failing == (ids - failing) + {id};
    }
  }

  function IdsOwned(list: seq<Service>, t: TaskId): set<ServiceId>
  {
    set e | e in list && Owner(e.tags) == Some(t) :: e.id
  }

  lemma {:induction false} CountIsSize(list: seq<Service>, t: TaskId)
    requires DistinctIds(list)
    ensures Count(list, t) == |IdsOwned(list, t)|
  {
    if list != [] {
      var init, last := list[..|list| - 1], list[|list| - 1];
      CountIsSize(init, t);
      assert list == init + [last];
      if Owner(last.tags) == Some(t) {
        assert last.id !in IdsOwned(init, t);
        assert IdsOwned(list, t) == IdsOwned(init, t) + {last.id};
      } else {
        assert IdsOwned(list, t) == IdsOwned(init, t);
      }
    }
  }

  lemma SnapshotCount(list: seq<Service>, s: Services, visible: set<ServiceId>, tag: string, t: TaskId)
    requires IsSnapshot(list, s, visible, tag)
    ensures Count(list, t) == |OwnedIds(s, visible, tag, t)|
  {
    CountIsSize(list, t);
    forall id ensures id in OwnedIds(s, visible, tag, t) <==> id in IdsOwned(list, t) {
      if id in OwnedIds(s, visible, tag, t) {
        assert ServiceOf(s[id]) in list;
      }
    }
    assert OwnedIds(s, visible, tag, t) == IdsOwned(list, t);
  }

  /** A pass registers exactly the healthy tasks of consul applications that own fewer of
      the listed entries than their application asks for. */
  lemma TodoIff(apps: seq<App>, list: seq<Service>, s: Services, visible: set<ServiceId>, tag: string, o: Order)
    requires IsSnapshot(list, s, visible, tag)
    ensures o in Todo(apps, list) <==>
            && o.app in apps && o.task in o.app.tasks && IsConsulApp(o.app) && Healthy(o.task)
            && |OwnedIds(s, visible, tag, o.task.id)| < IntentsNumber(o.app)
  {
    TodoMembers(apps, list);
    SnapshotCount(list, s, visible, tag, o.task.id);
  }

  /** A pass deregisters exactly the listed entries without owner, and those whose owner
      neither runs nor is found when its application is asked. */
  lemma StaleIff(list: seq<Service>, s: Services, visible: set<ServiceId>, tag: string, apps: seq<App>,
                 latest: map<AppId, seq<Task>>)
    requires IsSnapshot(list, s, visible, tag)
    ensures IdsOf(StaleOnes(list, Running(apps), latest)) == StaleIds(s, visible, tag, apps, latest)
  {
    var stale := StaleOnes(list, Running(apps), latest);
    forall id ensures id in IdsOf(stale) <==> id in StaleIds(s, visible, tag, apps, latest) {
      if id in StaleIds(s, visible, tag, apps, latest) {
        assert ServiceOf(s[id]) in list;
        assert ServiceOf(s[id]) in stale;
      }
    }
  }

  function CountOrders(orders: seq<Order>, p: Order -> bool): nat
  {
    if orders == [] then 0 else CountOrders(orders[..|orders| - 1], p) + if p(orders[|orders| - 1]) then 1 else 0
  }

  lemma {:induction false} CountAll(orders: seq<Order>)
    ensures CountOrders(orders, o => true) == |orders|
  {
    if orders != [] {
      CountAll(orders[..|orders| - 1]);
    }
  }

  lemma {:induction false} CountOrdersAppend(a: seq<Order>, b: seq<Order>, p: Order -> bool)
    ensures CountOrders(a + b, p) == CountOrders(a, p) + CountOrders(b, p)
  {
    if b == [] {
      assert a + b == a;
    } else {
      assert (a + b)[..|a + b| - 1] == a + b[..|b| - 1];
      CountOrdersAppend(a, b[..|b| - 1], p);
    }
  }

  /** The task at that place is to be registered, and has the property. */
  predicate DueAt(app: App, j: nat, list: seq<Service>, p: Order -> bool)
  {
    j < |app.tasks| && NeedsRegistration(app, app.tasks[j], list) && p(Order(app.tasks[j], app))
  }

  function PlacesOfApp(app: App, n: nat, list: seq<Service>, p: Order -> bool): set<nat>
  {
    set j: nat | j < n && DueAt(app, j, list, p)
  }

  function Places(apps: seq<App>, n: nat, list: seq<Service>, p: Order -> bool): set<(nat, nat)>
    requires n <= |apps|
  {
    set i: nat, j: nat |
      i < n && j < |apps[i].tasks| && DueAt(apps[i], j, list, p) :: (i, j)
  }

  lemma CountOneMore(orders: seq<Order>, o: Order, p: Order -> bool)
    ensures CountOrders(orders + [o], p) == CountOrders(orders, p) + if p(o) then 1 else 0
  {
    assert (orders + [o])[..|orders + [o]| - 1] == orders;
  }

  lemma OneMorePlace(app: App, n: nat, list: seq<Service>, p: Order -> bool)
    requires n < |app.tasks|
    ensures |PlacesOfApp(app, n + 1, list, p)| ==
            |PlacesOfApp(app, n, list, p)| + if DueAt(app, n, list, p) then 1 else 0
  {
    var before, after := PlacesOfApp(app, n, list, p), PlacesOfApp(app, n + 1, list, p);
    if DueAt(app, n, list, p) {
      assert after == before + {n};
    } else {
      assert after == before;
    }
  }

  lemma OneMoreTodo(app: App, n: nat, list: seq<Service>, p: Order -> bool)
    requires n < |app.tasks|
    ensures CountOrders(TodoOfApp(app, app.tasks[..n + 1], list), p) ==
            CountOrders(TodoOfApp(app, app.tasks[..n], list), p) + if DueAt(app, n, list, p) then 1 else 0
  {
    var before := TodoOfApp(app, app.tasks[..n], list);
    assert app.tasks[..n + 1][..n] == app.tasks[..n];
    if NeedsRegistration(app, app.tasks[n], list) {
      CountOneMore(before, Order(app.tasks[n], app), p);
    } else {
      assert before + [] == before;
    }
  }

  lemma {:induction false} PlacesOfAppCount(app: App, n: nat, list: seq<Service>, p: Order -> bool)
    requires n <= |app.tasks|
    ensures |PlacesOfApp(app, n, list, p)| == CountOrders(TodoOfApp(app, app.tasks[..n], list), p)
  {
    if n > 0 {
      PlacesOfAppCount(app, n - 1, list, p);
      OneMorePlace(app, n - 1, list, p);
      OneMoreTodo(app, n - 1, list, p);
    }
  }

  function Paired(i: nat, js: set<nat>): (r: set<(nat, nat)>)
    ensures forall k, j :: (k, j) in r <==> k == i && j in js
  {
    set j | j in js :: (i, j)
  }

  lemma {:induction false} PairedSize(i: nat, js: set<nat>)
    ensures |Paired(i, js)| == |js|
  {
    if js != {} {
      var j :| j in js;
      PairedSize(i, js - {j});
      assert Paired(i, js) == Paired(i, js - {j}) + {(i, j)};
    }
  }

  lemma MorePlaces(apps: seq<App>, n: nat, list: seq<Service>, p: Order -> bool)
    requires n < |apps|
    ensures |Places(apps, n + 1, list, p)| ==
            |Places(apps, n, list, p)| + |PlacesOfApp(apps[n], |apps[n].tasks|, list, p)|
  {
    var own := PlacesOfApp(apps[n], |apps[n].tasks|, list, p);
    PairedSize(n, own);
    PlacesSplit(apps, n, list, p);
  }

  lemma PlacesSplit(apps: seq<App>, n: nat, list: seq<Service>, p: Order -> bool)
    requires n < |apps|
    ensures var before, own := Places(apps, n, list, p), Paired(n, PlacesOfApp(apps[n], |apps[n].tasks|, list, p));
            Places(apps, n + 1, list, p) == before + own && before !! own
  {
    var before, own := Places(apps, n, list, p), Paired(n, PlacesOfApp(apps[n], |apps[n].tasks|, list, p));
    var after := Places(apps, n + 1, list, p);
    forall i: nat, j: nat ensures (i, j) in after <==> (i, j) in before || (i, j) in own {
    }
  }

  lemma MoreTodo(apps: seq<App>, n: nat, list: seq<Service>)
    requires n < |apps|
    ensures Todo(apps[..n + 1], list) == Todo(apps[..n], list) + TodoOfApp(apps[n], apps[n].tasks, list)
  {
    assert apps[..n + 1][..n] == apps[..n];
  }

  lemma {:induction false} PlacesCount(apps: seq<App>, n: nat, list: seq<Service>, p: Order -> bool)
    requires n <= |apps|
    ensures |Places(apps, n, list, p)| == CountOrders(Todo(apps[..n], list), p)
  {
    if n > 0 {
      var app := apps[n - 1];
      PlacesCount(apps, n - 1, list, p);
      MorePlaces(apps, n - 1, list, p);
      MoreTodo(apps, n - 1, list);
      PlacesOfAppCount(app, |app.tasks|, list, p);
      assert app.tasks[..|app.tasks|] == app.tasks;
      CountOrdersAppend(Todo(apps[..n - 1], list), TodoOfApp(app, app.tasks, list), p);
    }
  }

  /** The registration of the order goes through. */
  predicate GoesThrough(config: Config, dns: map<string, string>, failing: set<ServiceId>, o: Order)
  {
    NamedInRange(o.app, o.task) && BatchOf(config, dns, o.task, o.app).Succeeds(failing)
  }

  lemma {:induction false} SucceedingCount(config: Config, dns: map<string, string>, failing: set<ServiceId>,
                                           orders: seq<Order>)
    requires OrdersInRange(orders)
    ensures Succeeding(Batches(config, dns, orders), failing) ==
            CountOrders(orders, o => GoesThrough(config, dns, failing, o))
  {
    if orders != [] {
      var init := orders[..|orders| - 1];
      SucceedingCount(config, dns, failing, init);
      var batches := Batches(config, dns, orders);
      assert batches[..|batches| - 1] == Batches(config, dns, init);
    }
  }

  lemma LackingIs(apps: seq<App>, list: seq<Service>, s: Services, visible: set<ServiceId>, tag: string)
    requires IsSnapshot(list, s, visible, tag)
    ensures forall i: nat, j: nat :: i < |apps| && j < |apps[i].tasks| ==>
              (NeedsRegistration(apps[i], apps[i].tasks[j], list) <==> (i, j) in Lacking(apps, s, visible, tag))
  {
    forall i: nat, j: nat | i < |apps| && j < |apps[i].tasks|
      ensures NeedsRegistration(apps[i], apps[i].tasks[j], list) <==> (i, j) in Lacking(apps, s, visible, tag)
    {
      SnapshotCount(list, s, visible, tag, apps[i].tasks[j].id);
    }
  }

  lemma LackingCount(apps: seq<App>, list: seq<Service>, s: Services, visible: set<ServiceId>, tag: string)
    requires IsSnapshot(list, s, visible, tag)
    ensures |Lacking(apps, s, visible, tag)| == |Todo(apps, list)|
  {
    LackingIs(apps, list, s, visible, tag);
    PlacesCount(apps, |apps|, list, o => true);
    assert apps[..|apps|] == apps;
    assert Places(apps, |apps|, list, o => true) == Lacking(apps, s, visible, tag);
    CountAll(Todo(apps, list));
  }

  lemma ReachesIff(config: Config, dns: map<string, string>, failing: set<ServiceId>, o: Order)
    requires NamedInRange(o.app, o.task)
    ensures GoesThrough(config, dns, failing, o) <==>
            o.task.host in dns && Reaches(o.task, Intents(o.app, o.task, config.separator), failing)
  {
    var intents := Intents(o.app, o.task, config.separator);
    SuccessIsWrittenOut(config, dns, o.task, o.app, failing);
    forall i | 0 <= i < |intents|
      ensures PlannedId(o.task, intents, ServiceIdOf(o.task.id, intents[i].name, intents[i].port))
    {
    }
  }

  lemma LackingWellCount(config: Config, dns: map<string, string>, failing: set<ServiceId>, apps: seq<App>,
                         list: seq<Service>, s: Services, visible: set<ServiceId>)
    requires IsSnapshot(list, s, visible, config.tag) && AllNamedInRange(apps)
    ensures |LackingWell(config, dns, failing, apps, s, visible)| ==
            Succeeding(TodoBatches(config, dns, apps, list), failing)
  {
    var p := o => GoesThrough(config, dns, failing, o);
    LackingIs(apps, list, s, visible, config.tag);
    PlacesCount(apps, |apps|, list, p);
    assert apps[..|apps|] == apps;
    TodoInRange(apps, list);
    SucceedingCount(config, dns, failing, Todo(apps, list));
    var some := LackingWell(config, dns, failing, apps, s, visible);
    forall i: nat, j: nat ensures (i, j) in Places(apps, |apps|, list, p) <==> (i, j) in some {
      if i < |apps| && j < |apps[i].tasks| {
        ReachesIff(config, dns, failing, Order(apps[i].tasks[j], apps[i]));
      }
    }
    assert Places(apps, |apps|, list, p) == some;
  }

  lemma PassIsCounted(config: Config, dns: map<string, string>, failRegister: set<ServiceId>,
                      failDeregister: set<ServiceId>, apps: seq<App>, latest: map<AppId, seq<Task>>, s: Services,
                      s': Services, visible: set<ServiceId>, list: seq<Service>, outcome: Outcome)
    requires AllNamedInRange(apps) && IsSnapshot(list, s, visible, config.tag)
    requires PassResult(config, dns, failRegister, failDeregister, apps, list, latest, s, s', outcome)
    ensures Counted(config, dns, failRegister, failDeregister, apps, latest, s, visible, outcome)
  {
    LackingCount(apps, list, s, visible, config.tag);
    LackingWellCount(config, dns, failRegister, apps, list, s, visible);
    StaleIdsAreDistinct(list, Running(apps), latest);
    DistinctIdsCount(StaleOnes(list, Running(apps), latest), failDeregister);
    StaleIff(list, s, visible, config.tag, apps, latest);
  }

  /** Where every healthy task of a consul application owns as many listed entries as its
      application asks for, a pass registers nothing. */
  lemma NobodyLacks(apps: seq<App>, s: Services, visible: set<ServiceId>, tag: string)
    ensures Lacking(apps, s, visible, tag) == {} <==>
            forall app, task :: app in apps && task in app.tasks && IsConsulApp(app) && Healthy(task) ==>
              |OwnedIds(s, visible, tag, task.id)| >= IntentsNumber(app)
  {
    if Lacking(apps, s, visible, tag) == {} {
      forall app, task | app in apps && task in app.tasks && IsConsulApp(app) && Healthy(task)
        ensures |OwnedIds(s, visible, tag, task.id)| >= IntentsNumber(app)
      {
        var i :| 0 <= i < |apps| && apps[i] == app;
        var j :| 0 <= j < |apps[i].tasks| && apps[i].tasks[j] == task;
        assert (i, j) !in Lacking(apps, s, visible, tag);
      }
    }
  }
}
