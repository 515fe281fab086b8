/** The event worker: what one event of Marathon's stream does to the registry. */
module Worker {
  import opened Text
  import opened Identity
  import opened Planning
  import opened Registry
  import opened Reconcile
  import opened Convergence

  const STATUS_UPDATE: string := "status_update_event"
  const HEALTH_CHANGED: string := "health_status_changed_event"

  datatype StatusUpdate = StatusUpdate(task: TaskId, status: string)

  datatype HealthChange = HealthChange(id: TaskId, instanceId: string, appId: AppId, alive: bool)

  /** What the two JSON parsers make of the body of an event. */
  datatype Body = Body(status: Option<StatusUpdate>, health: Option<HealthChange>)

  predicate Terminal(status: string)
  {
    status in {"TASK_FINISHED", "TASK_FAILED", "TASK_KILLING", "TASK_KILLED", "TASK_LOST"}
  }

  /** `ParseTaskHealthChange` refuses an event that names neither task nor instance. */
  predicate NamesTask(change: HealthChange) { change.id != "" || change.instanceId != "" }

  // ---- what an event asks for -----------------------------------------------

  /** The task that a health event makes the worker register, by Marathon's latest answer. */
  function ToRegister(change: HealthChange, marathon: map<AppId, App>): (order: Option<Order>)
    ensures order.Some? ==>
              && change.alive && NamesTask(change) && change.appId in marathon
              && order.value.app == marathon[change.appId] && IsConsulApp(order.value.app)
              && order.value.task in order.value.app.tasks && Healthy(order.value.task)
              && order.value.task.id == HealthTaskId(change.id, change.instanceId)
  {
    if !NamesTask(change) || !change.alive || change.appId !in marathon then None
    else
      var app := marathon[change.appId];
      if !IsConsulApp(app) then None
      else
        match FindTask(HealthTaskId(change.id, change.instanceId), app.tasks)
        case Some(task) => if Healthy(task) then Some(Order(task, app)) else None
        case None => None
  }

  function AfterHealth(config: Config, dns: map<string, string>, failing: set<ServiceId>, s: Services,
                       change: HealthChange, marathon: map<AppId, App>): Services
    requires ToRegister(change, marathon).Some? ==>
               NamedInRange(ToRegister(change, marathon).value.app, ToRegister(change, marathon).value.task)
  {
    match ToRegister(change, marathon)
    case Some(o) => PutAll(s, RegistrationsOf(config, dns, o.task, o.app), failing)
    case None => s
  }

  function AfterStatus(failing: set<ServiceId>, s: Services, listing: Option<set<ServiceId>>,
                       update: StatusUpdate): Services
  {
    if Terminal(update.status) && listing.Some? then s - (IdsOfTask(s, listing.value, update.task) - failing) else s
  }

  /** Apart from a failing registration, a health event is in error only if it is
      nameless, or if Marathon does not answer for a living task. */
  predicate HealthSucceeds(config: Config, dns: map<string, string>, failing: set<ServiceId>,
                           change: HealthChange, marathon: map<AppId, App>)
    requires ToRegister(change, marathon).Some? ==>
               NamedInRange(ToRegister(change, marathon).value.app, ToRegister(change, marathon).value.task)
  {
    && NamesTask(change) && (change.alive ==> change.appId in marathon)
    && match ToRegister(change, marathon)
       case Some(o) => BatchOf(config, dns, o.task, o.app).Succeeds(failing)
       case None => true
  }

  predicate StatusSucceeds(failing: set<ServiceId>, s: Services, listing: Option<set<ServiceId>>, update: StatusUpdate)
  {
    Terminal(update.status) ==> listing.Some? && IdsOfTask(s, listing.value, update.task) !! failing
  }

  // ---- the same, written out ------------------------------------------------

  /** The event is about the task of that ID: by its task ID if it has one, and otherwise by
      its instance ID, without the word that Marathon 1.4 puts before the last part. */
  ghost predicate About(change: HealthChange, id: TaskId)
  {
    if change.id != "" then id == change.id
    else change.instanceId != "" && NamesInstance(change.instanceId, id)
  }

  ghost predicate NamesInstance(instanceId: string, id: TaskId)
  {
    || (exists app, kind, uuid :: InstanceMatch(instanceId, app, kind, uuid) && id == app + "." + uuid)
    || (id == instanceId && forall app, kind, uuid :: !InstanceMatch(instanceId, app, kind, uuid))
  }

  /** The application of the event as Marathon shows it lists this task, and would have it
      registered. */
  ghost predicate Calls(change: HealthChange, marathon: map<AppId, App>, task: Task)
  {
    && change.alive && change.appId in marathon
    && (exists l :: l in marathon[change.appId].labels && l.key == "consul")
    && task in marathon[change.appId].tasks && About(change, task.id)
    && task.healthChecks != [] && false !in task.healthChecks && task.state != "TASK_KILLING"
  }

  predicate OnlyOne(tasks: seq<Task>, task: Task) { forall u :: u in tasks && u.id == task.id ==> u == task }

  /** What a health event does: it registers the plan of the task that it calls for, and
      without such a task it changes nothing. */
  ghost predicate HealthOutcome(config: Config, dns: map<string, string>, failing: set<ServiceId>,
                                change: HealthChange, marathon: map<AppId, App>, s: Services, s': Services, ok: bool)
  {
    && (change.id == "" && change.instanceId == "" ==> !ok)
    && (change.alive && change.appId !in marathon ==> !ok)
    && ((forall task :: !Calls(change, marathon, task)) ==>
          s' == s &&
          ((change.id != "" || change.instanceId != "") && (change.alive ==> change.appId in marathon) ==> ok))
    && forall task :: Calls(change, marathon, task) && OnlyOne(marathon[change.appId].tasks, task) ==>
         TaskOutcome(config, dns, failing, marathon[change.appId], task, s, s', ok)
  }

  ghost predicate TaskOutcome(config: Config, dns: map<string, string>, failing: set<ServiceId>, app: App, task: Task,
                              s: Services, s': Services, ok: bool)
  {
    && NamedInRange(app, task)
    && (if task.host in dns then
          PlanEntered(config, dns[task.host], task, Intents(app, task, config.separator), failing, s, s')
        else s' == s)
    && (ok <==> task.host in dns && forall id :: PlannedId(task, Intents(app, task, config.separator), id) ==>
                                      id !in failing)
  }

  /** What a status event does: a terminal one takes away the services that are listed with
      the tag of the task. */
  ghost predicate StatusOutcome(failing: set<ServiceId>, catalogue: Catalogue, update: StatusUpdate,
                                s: Services, s': Services, ok: bool)
  {
    if update.status in {"TASK_FINISHED", "TASK_FAILED", "TASK_KILLING", "TASK_KILLED", "TASK_LOST"} then
      TaskIsGone(s, s', ok, catalogue, update.task, failing)
    else ok && s' == s
  }

  lemma AboutIsHealthTaskId(change: HealthChange, id: TaskId)
    ensures About(change, id) <==> NamesTask(change) && id == HealthTaskId(change.id, change.instanceId)
  {
    NormalizeIsTheRegex(change.instanceId);
  }

  /** A task that a health event calls for is the one it registers. */
  lemma CalledIsOrdered(change: HealthChange, marathon: map<AppId, App>, task: Task)
    requires Calls(change, marathon, task) && OnlyOne(marathon[change.appId].tasks, task)
    ensures ToRegister(change, marathon) == Some(Order(task, marathon[change.appId]))
  {
    AboutIsHealthTaskId(change, task.id);
  }

  lemma OrderedIsCalled(change: HealthChange, marathon: map<AppId, App>)
    requires ToRegister(change, marathon).Some?
    ensures Calls(change, marathon, ToRegister(change, marathon).value.task)
  {
    AboutIsHealthTaskId(change, ToRegister(change, marathon).value.task.id);
  }

  lemma HealthIsWrittenOut(config: Config, dns: map<string, string>, failing: set<ServiceId>, s: Services,
                           change: HealthChange, marathon: map<AppId, App>)
    requires ToRegister(change, marathon).Some? ==>
               NamedInRange(ToRegister(change, marathon).value.app, ToRegister(change, marathon).value.task)
    ensures HealthOutcome(config, dns, failing, change, marathon, s,
                          AfterHealth(config, dns, failing, s, change, marathon),
                          HealthSucceeds(config, dns, failing, change, marathon))
  {
    var s', ok := AfterHealth(config, dns, failing, s, change, marathon),
                  HealthSucceeds(config, dns, failing, change, marathon);
    if ToRegister(change, marathon).Some? {
      OrderedIsCalled(change, marathon);
    }
    forall task | Calls(change, marathon, task) && OnlyOne(marathon[change.appId].tasks, task)
      ensures TaskOutcome(config, dns, failing, marathon[change.appId], task, s, s', ok)
    {
      CalledIsOrdered(change, marathon, task);
      AboutIsHealthTaskId(change, task.id);
      RegisteringIsWrittenOut(config, dns, failing, marathon[change.appId], task, s);
    }
  }

  lemma RegisteringIsWrittenOut(config: Config, dns: map<string, string>, failing: set<ServiceId>, app: App, task: Task,
                                s: Services)
    requires NamedInRange(app, task)
    ensures TaskOutcome(config, dns, failing, app, task, s,
                        PutAll(s, RegistrationsOf(config, dns, task, app), failing),
                        BatchOf(config, dns, task, app).Succeeds(failing))
  {
    SuccessIsWrittenOut(config, dns, task, app, failing);
    if task.host in dns {
      PlanIsEntered(config, dns, task, app, failing, s);
    }
  }

  /** From event to registry: if nothing fails, a health event leaves an entry for every
      comma-separated part of every consul label of the task that it calls for, with the
      name that the part asks for, the port of that label, and the task as its owner. */
  lemma EventRegistersEveryPart(config: Config, dns: map<string, string>, s: Services, change: HealthChange,
                                marathon: map<AppId, App>, task: Task, k: nat, value: string, j: nat)
    returns (intent: Intent)
    requires Calls(change, marathon, task) && OnlyOne(marathon[change.appId].tasks, task) && task.host in dns
    requires forall u :: u in marathon[change.appId].tasks ==> NamedInRange(marathon[change.appId], u)
    requires CleanApp(config, marathon[change.appId])
    requires k < |Definitions(marathon[change.appId])| && k < |task.ports|
    requires HasLabel(Definitions(marathon[change.appId])[k].labels, "consul", value)
    requires j < |Split(value, ',')|
    ensures Serves(marathon[change.appId], task, config.separator, k, value, Split(value, ',')[j], intent)
    ensures var id := ServiceIdOf(task.id, intent.name, intent.port);
            var s' := AfterHealth(config, dns, {}, s, change, marathon);
            && id in s' && s'[id].name == intent.name && s'[id].port == task.ports[k]
            && Owner(s'[id].tags) == Some(task.id)
  {
    CalledIsOrdered(change, marathon, task);
    intent := EveryPartIsRegistered(config, dns, task, marathon[change.appId], {}, s, k, value, j);
  }

  // ---- the imperative worker ------------------------------------------------

  class EventHandler {
    const registry: ServiceRegistry

    constructor (registry: ServiceRegistry)
      ensures this.registry == registry
    {
      this.registry := registry;
    }

    method HandleEvent(eventType: string, body: Body, marathon: map<AppId, App>, catalogue: Catalogue)
      returns (ok: bool)
      requires Keyed(registry.services)
      requires body.health.Some? && ToRegister(body.health.value, marathon).Some? ==>
                 var o := ToRegister(body.health.value, marathon).value; NamedInRange(o.app, o.task)
      modifies registry`services
      ensures Keyed(registry.services)
      ensures eventType == STATUS_UPDATE && body.status.Some? ==>
                var listing := Listing(old(registry.services), catalogue, OwnerTag(body.status.value.task));
                && registry.services ==
                   AfterStatus(registry.failDeregister, old(registry.services), listing, body.status.value)
                && (ok <==> StatusSucceeds(registry.failDeregister, old(registry.services), listing, body.status.value))
      ensures eventType == HEALTH_CHANGED && body.health.Some? ==>
                && registry.services == AfterHealth(registry.config, registry.dns, registry.failRegister,
                                                    old(registry.services), body.health.value, marathon)
                && (ok <==>
                    HealthSucceeds(registry.config, registry.dns, registry.failRegister, body.health.value, marathon))
      ensures eventType == "status_update_event" && body.status.Some? ==>
                StatusOutcome(registry.failDeregister, catalogue, body.status.value, old(registry.services),
                              registry.services, ok)
      ensures eventType == "health_status_changed_event" && body.health.Some? ==>
                HealthOutcome(registry.config, registry.dns, registry.failRegister, body.health.value, marathon,
                              old(registry.services), registry.services, ok)
      ensures (eventType == "status_update_event" && body.status.Some?) ||
              (eventType == "health_status_changed_event" && body.health.Some?) ||
              (!ok && registry.services == old(registry.services))
    {
      if eventType == STATUS_UPDATE {
        if body.status.None? {
          return false;
        }
        ok := HandleStatusEvent(body.status.value, catalogue);
      } else if eventType == HEALTH_CHANGED {
        if body.health.None? {
          return false;
        }
        ok := HandleHealthyTask(body.health.value, marathon);
      } else {
        return false;
      }
    }

    /** `handleHealthyTask`. */
    method HandleHealthyTask(change: HealthChange, marathon: map<AppId, App>) returns (ok: bool)
      requires Keyed(registry.services)
      requires ToRegister(change, marathon).Some? ==>
                 var o := ToRegister(change, marathon).value; NamedInRange(o.app, o.task)
      modifies registry`services
      ensures Keyed(registry.services)
      ensures registry.services == AfterHealth(registry.config, registry.dns, registry.failRegister,
                                               old(registry.services), change, marathon)
      ensures ok <==> HealthSucceeds(registry.config, registry.dns, registry.failRegister, change, marathon)
      ensures HealthOutcome(registry.config, registry.dns, registry.failRegister, change, marathon,
                            old(registry.services), registry.services, ok)
    {
      HealthIsWrittenOut(registry.config, registry.dns, registry.failRegister, registry.services, change, marathon);
      if !NamesTask(change) {
        return false;
      }
      var id := HealthTaskId(change.id, change.instanceId);
      if !change.alive {
        return true;
      }
      if change.appId !in marathon {
        return false;
      }
      var app := marathon[change.appId];
      if !IsConsulApp(app) {
        return true;
      }
      var task := FindTask(id, app.tasks);
      if task.None? {
        return true;
      }
      var healthy := IsHealthy(task.value);
      if healthy {
        ok := registry.Register(task.value, app);
        return ok;
      }
      return true;
    }

    /** `handleStatusEvent`. */
    method HandleStatusEvent(update: StatusUpdate, catalogue: Catalogue) returns (ok: bool)
      requires Keyed(registry.services)
      modifies registry`services
      ensures Keyed(registry.services)
      ensures var listing := Listing(old(registry.services), catalogue, OwnerTag(update.task));
              && registry.services == AfterStatus(registry.failDeregister, old(registry.services), listing, update)
              && (ok <==> StatusSucceeds(registry.failDeregister, old(registry.services), listing, update))
      ensures StatusOutcome(registry.failDeregister, catalogue, update, old(registry.services), registry.services, ok)
    {
      if Terminal(update.status) {
        ok := registry.DeregisterByTask(update.task, catalogue);
        return ok;
      }
      return true;
    }
  }

  // ---- what events keep -----------------------------------------------------

  /** Entries of other tasks survive every health event. */
  lemma HealthKeepsOthers(config: Config, dns: map<string, string>, failing: set<ServiceId>, s: Services,
                          o: Order, id: ServiceId, t: TaskId)
    requires NamedInRange(o.app, o.task) && CleanApp(config, o.app)
    requires id in s && Begins(id, t) && Apart(t, o.task.id)
    ensures var s' := PutAll(s, RegistrationsOf(config, dns, o.task, o.app), failing); id in s' && s'[id] == s[id]
  {
    var rs := RegistrationsOf(config, dns, o.task, o.app);
    PutAllEntry(s, rs, failing, id);
    if LastWith(rs, id).Some? {
      RegistrationNamesItsOwner(config, dns, o.task, o.app, LastWith(rs, id).value);
      BeginsWithOne(id, t, o.task.id);
    }
  }

  /** The registry stays owned, entry by entry, whatever fails. */
  lemma HealthStaysOwned(config: Config, dns: map<string, string>, failing: set<ServiceId>, s: Services,
                         change: HealthChange, marathon: map<AppId, App>)
    requires Owned(s) && forall a :: a in marathon ==> CleanApp(config, marathon[a])
    requires ToRegister(change, marathon).Some? ==>
               var o := ToRegister(change, marathon).value; NamedInRange(o.app, o.task)
    ensures Owned(AfterHealth(config, dns, failing, s, change, marathon))
  {
    var s' := AfterHealth(config, dns, failing, s, change, marathon);
    if ToRegister(change, marathon).Some? {
      var o := ToRegister(change, marathon).value;
      var rs := RegistrationsOf(config, dns, o.task, o.app);
      forall id | id in s'
        ensures s'[id].id == id && SingleOwner(s'[id].tags)
        ensures Owner(s'[id].tags).Some? && Begins(id, Owner(s'[id].tags).value)
      {
        PutAllEntry(s, rs, failing, id);
        if id !in failing && LastWith(rs, id).Some? {
          RegistrationNamesItsOwner(config, dns, o.task, o.app, LastWith(rs, id).value);
        }
      }
    }
  }

  /** With a full listing and no failures a terminal status event takes away exactly
      the entries that the task owns. */
  lemma StatusRemovesTheTask(s: Services, update: StatusUpdate, id: ServiceId)
    requires Owned(s) && Terminal(update.status)
    ensures var s' := AfterStatus({}, s, Some(s.Keys), update);
            && (id in s' <==> id in s && Owner(s[id].tags) != Some(update.task))
            && (id in s' ==> s'[id] == s[id])
  {
    TaskOwnsItsIds(s, s.Keys, update.task);
  }

  /** A terminal status event undoes the registration of the task: afterwards the
      registry is as if it had never held the task. */
  lemma StatusUndoesHealth(config: Config, dns: map<string, string>, failing: set<ServiceId>, s: Services,
                           change: HealthChange, marathon: map<AppId, App>, update: StatusUpdate)
    requires Owned(s) && AllApart(OwnersOf(s) + {update.task})
    requires forall a :: a in marathon ==> CleanApp(config, marathon[a])
    requires update.task == HealthTaskId(change.id, change.instanceId) && Terminal(update.status)
    requires ToRegister(change, marathon).Some? ==>
               var o := ToRegister(change, marathon).value; NamedInRange(o.app, o.task)
    ensures var s' := AfterHealth(config, dns, failing, s, change, marathon);
            AfterStatus({}, s', Some(s'.Keys), update) == AfterStatus({}, s, Some(s.Keys), update)
  {
    var s' := AfterHealth(config, dns, failing, s, change, marathon);
    HealthStaysOwned(config, dns, failing, s, change, marathon);
    var a, b := AfterStatus({}, s', Some(s'.Keys), update), AfterStatus({}, s, Some(s.Keys), update);
    forall id ensures id in a <==> id in b
      ensures id in a ==> a[id] == b[id]
    {
      StatusRemovesTheTask(s', update, id);
      StatusRemovesTheTask(s, update, id);
      if ToRegister(change, marathon).Some? {
        OthersAreTheSame(config, dns, failing, s, ToRegister(change, marathon).value, id);
      }
    }
    assert a.Keys == b.Keys;
  }

  lemma OthersAreTheSame(config: Config, dns: map<string, string>, failing: set<ServiceId>, s: Services, o: Order,
                         id: ServiceId)
    requires Owned(s) && AllApart(OwnersOf(s) + {o.task.id}) && CleanApp(config, o.app) && NamedInRange(o.app, o.task)
    ensures var s' := PutAll(s, RegistrationsOf(config, dns, o.task, o.app), failing);
            && (id in s && Owner(s[id].tags) != Some(o.task.id) ==> id in s' && s'[id] == s[id])
            && (id in s' && Owner(s'[id].tags) != Some(o.task.id) ==> id in s && s'[id] == s[id])
  {
    var rs := RegistrationsOf(config, dns, o.task, o.app);
    PutAllEntry(s, rs, failing, id);
    if LastWith(rs, id).Some? {
      RegistrationNamesItsOwner(config, dns, o.task, o.app, LastWith(rs, id).value);
      if id in s && Owner(s[id].tags) != Some(o.task.id) {
        HealthKeepsOthers(config, dns, failing, s, o, id, Owner(s[id].tags).value);
      }
    }
  }
}
