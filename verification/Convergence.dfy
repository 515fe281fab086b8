/** What sync passes achieve while Marathon stands still and nothing fails. */
module Convergence {
  import opened Text
  import opened Identity
  import opened Planning
  import opened Registry
  import opened Reconcile

  /** What does not change between the passes. */
  datatype World = World(config: Config, dns: map<string, string>, apps: seq<App>, latest: map<AppId, seq<Task>>)

  predicate AllApart(ids: set<TaskId>)
  {
    forall t, t' :: t in ids && t' in ids && t != t' ==> Apart(t, t')
  }

  predicate UniqueTasks(apps: seq<App>)
  {
    forall i, j, k, l ::
      (&& 0 <= i < |apps| && 0 <= j < |apps[i].tasks|
       && 0 <= k < |apps| && 0 <= l < |apps[k].tasks|
       && apps[i].tasks[j].id == apps[k].tasks[l].id) ==> i == k && j == l
  }

  /** Marathon reports every task once, no task ID continues another, and no label
      imitates an owner tag. */
  predicate Ordinary(w: World)
  {
    && AllNamedInRange(w.apps)
    && UniqueTasks(w.apps)
    && AllApart(Running(w.apps))
    && forall app :: app in w.apps ==> CleanApp(w.config, app)
  }

  /** An entry in the ID space of one of the tasks belongs to that task. */
  predicate Tidy(s: Services, ids: set<TaskId>)
  {
    forall id, t :: id in s && t in ids && Begins(id, t) ==> Owner(s[id].tags) == Some(t)
  }

  /** The registry after a pass without failures over a full snapshot. */
  function Pass(w: World, s: Services, services: seq<Service>): Services
    requires Ordinary(w)
  {
    AfterSync(w.config, w.dns, {}, {}, s, w.apps, services, w.latest)
  }

  predicate FullSnapshot(w: World, list: seq<Service>, s: Services)
  {
    Keyed(s) && IsSnapshot(list, s, s.Keys, w.config.tag)
  }

  function StaleIn(w: World, list: seq<Service>): seq<Service>
  {
    StaleOnes(list, Running(w.apps), w.latest)
  }

  /** The registrations that the pass asks for. */
  function Wanted(w: World, list: seq<Service>): seq<Registration>
    requires Ordinary(w)
  {
    Planned(TodoBatches(w.config, w.dns, w.apps, list))
  }

  // ---- where the registrations come from ------------------------------------

  predicate FromApps(w: World, orders: seq<Order>)
  {
    forall o :: o in orders ==> o.app in w.apps && o.task in o.app.tasks && NamedInRange(o.app, o.task)
  }

  lemma TodoFromApps(w: World, list: seq<Service>)
    requires Ordinary(w)
    ensures FromApps(w, Todo(w.apps, list))
  {
    TodoMembers(w.apps, list);
  }

  lemma RunningTask(w: World, o: Order)
    requires o.app in w.apps && o.task in o.app.tasks
    ensures o.task.id in Running(w.apps)
  {
    var i :| 0 <= i < |w.apps| && w.apps[i] == o.app;
    var j :| 0 <= j < |o.app.tasks| && w.apps[i].tasks[j] == o.task;
  }

  lemma SameTask(w: World, o: Order, o': Order)
    requires UniqueTasks(w.apps) && o.app in w.apps && o.task in o.app.tasks
    requires o'.app in w.apps && o'.task in o'.app.tasks
    requires o.task.id == o'.task.id
    ensures o == o'
  {
    var i :| 0 <= i < |w.apps| && w.apps[i] == o.app;
    var j :| 0 <= j < |w.apps[i].tasks| && w.apps[i].tasks[j] == o.task;
    var k :| 0 <= k < |w.apps| && w.apps[k] == o'.app;
    var l :| 0 <= l < |w.apps[k].tasks| && w.apps[k].tasks[l] == o'.task;
  }

  /** Everything the rest needs to know about a planned registration. */
  predicate BelongsTo(w: World, r: Registration, o: Order)
  {
    && NamedInRange(o.app, o.task)
    && r in RegistrationsOf(w.config, w.dns, o.task, o.app)
    && Owner(r.tags) == Some(o.task.id) && w.config.tag in r.tags
    && Begins(r.id, o.task.id) && o.task.id in Running(w.apps)
  }

  lemma {:induction false} PlannedBelongs(w: World, orders: seq<Order>, r: Registration) returns (o: Order)
    requires Ordinary(w) && FromApps(w, orders) && r in Planned(Batches(w.config, w.dns, orders))
    ensures o in orders && BelongsTo(w, r, o)
  {
    var batches := Batches(w.config, w.dns, orders);
    var init, last := orders[..|orders| - 1], orders[|orders| - 1];
    assert batches[..|batches| - 1] == Batches(w.config, w.dns, init);
    if r in batches[|batches| - 1].registrations {
      o := last;
      RegistrationNamesItsOwner(w.config, w.dns, o.task, o.app, r);
      RunningTask(w, o);
    } else {
      o := PlannedBelongs(w, init, r);
    }
  }

  lemma {:induction false} OrdersArePlanned(w: World, orders: seq<Order>, o: Order)
    requires OrdersInRange(orders) && o in orders
    ensures forall r :: r in RegistrationsOf(w.config, w.dns, o.task, o.app) ==>
            r in Planned(Batches(w.config, w.dns, orders))
  {
    var batches := Batches(w.config, w.dns, orders);
    var init := orders[..|orders| - 1];
    assert batches[..|batches| - 1] == Batches(w.config, w.dns, init);
    if o != orders[|orders| - 1] {
      OrdersArePlanned(w, init, o);
    }
  }

  lemma {:induction false} LastWithAppend(a: seq<Registration>, b: seq<Registration>, id: ServiceId)
    ensures LastWith(a + b, id) == if LastWith(b, id).Some? then LastWith(b, id) else LastWith(a, id)
  {
    if b == [] {
      assert a + b == a;
    } else {
      assert (a + b)[..|a + b| - 1] == a + b[..|b| - 1];
      LastWithAppend(a, b[..|b| - 1], id);
    }
  }

  /** In the ID space of a task only that task's registrations count. */
  lemma {:induction false} LastOfPlanned(w: World, orders: seq<Order>, o: Order, id: ServiceId)
    requires Ordinary(w) && FromApps(w, orders) && o in orders && Begins(id, o.task.id)
    ensures LastWith(Planned(Batches(w.config, w.dns, orders)), id) ==
            LastWith(RegistrationsOf(w.config, w.dns, o.task, o.app), id)
  {
    var batches := Batches(w.config, w.dns, orders);
    var init, last := orders[..|orders| - 1], orders[|orders| - 1];
    var before, own := Planned(Batches(w.config, w.dns, init)), RegistrationsOf(w.config, w.dns, last.task, last.app);
    assert batches[..|batches| - 1] == Batches(w.config, w.dns, init);
    LastWithAppend(before, own, id);
    if last != o {
      LastOfPlanned(w, init, o, id);
      if LastWith(own, id).Some? {
        RegistrationOfOne(w, last, o, LastWith(own, id).value);
      }
    } else if LastWith(own, id).None? && LastWith(before, id).Some? {
      var o' := OnlyItsTask(w, init, LastWith(before, id).value, o);
    }
  }

  lemma OnlyItsTask(w: World, orders: seq<Order>, r: Registration, o: Order) returns (o': Order)
    requires Ordinary(w) && FromApps(w, orders) && r in Planned(Batches(w.config, w.dns, orders))
    requires o.app in w.apps && o.task in o.app.tasks && Begins(r.id, o.task.id)
    ensures o' == o && o in orders && BelongsTo(w, r, o)
  {
    o' := PlannedBelongs(w, orders, r);
    RunningTask(w, o);
    if o'.task.id != o.task.id {
      BeginsWithOne(r.id, o'.task.id, o.task.id);
    }
    SameTask(w, o, o');
  }

  lemma RegistrationOfOne(w: World, o: Order, o': Order, r: Registration)
    requires Ordinary(w) && FromApps(w, [o, o'])
    requires r in RegistrationsOf(w.config, w.dns, o.task, o.app) && Begins(r.id, o'.task.id)
    ensures o == o'
  {
    assert o in [o, o'] && o' in [o, o'];
    assert o.app in w.apps && CleanApp(w.config, o.app);
    RegistrationNamesItsOwner(w.config, w.dns, o.task, o.app, r);
    RunningTask(w, o);
    RunningTask(w, o');
    if o.task.id != o'.task.id {
      BeginsWithOne(r.id, o.task.id, o'.task.id);
    }
    SameTask(w, o, o');
  }

  // ---- convergence ----------------------------------------------------------

  /** The pass, entry by entry: what it wanted replaces what was there, and then the
      stale IDs are gone. */
  lemma PassEntry(w: World, s: Services, list: seq<Service>, id: ServiceId)
    requires Ordinary(w)
    ensures var r := LastWith(Wanted(w, list), id);
            && (id in Pass(w, s, list) <==> (id in s || r.Some?) && id !in IdsOf(StaleIn(w, list)))
            && (id in Pass(w, s, list) ==> Pass(w, s, list)[id] == if r.Some? then r.value else s[id])
  {
    PutAllEntry(s, Wanted(w, list), {}, id);
  }

  /** A wanted registration survives the pass exactly when the snapshot had no stale
      service under its ID. */
  lemma WantedSurvivesIff(w: World, s: Services, list: seq<Service>, r: Registration)
    requires Ordinary(w) && r in Wanted(w, list)
    ensures r.id in Pass(w, s, list) <==> forall e :: e in list && e.id == r.id ==> !Stale(e, Running(w.apps), w.latest)
  {
    PassEntry(w, s, list, r.id);
  }

  /** One healthy task of one application with the consul label. */
  lemma OneTask() returns (w: World, o: Order)
    ensures Ordinary(w) && w.apps == [o.app] && o.app.tasks == [o.task] && w.config.tag == "t"
    ensures IsConsulApp(o.app) && Healthy(o.task) && NamedInRange(o.app, o.task)
    ensures |RegistrationsOf(w.config, w.dns, o.task, o.app)| == IntentsNumber(o.app) == 1
  {
    var task := Task("a.1", "TASK_RUNNING", "h", [1], [true]);
    var app := App("/a", [Label(CONSUL, "")], [], [], [task]);
    w, o := World(Config("t", ".", false), map["h" := "h"], [app], map[]), Order(task, app);
    assert Definitions(app) == [];
    assert app.labels[0] == Label(CONSUL, "");
    assert w.apps[0].tasks[0].id == "a.1";
    assert Running(w.apps) == {"a.1"};
    assert |Intents(app, task, ".")| == 1;
  }

  /** An entry without owner where the task's only registration belongs. */
  lemma OwnerlessEntry(w: World, o: Order, r: Registration) returns (s: Services, list: seq<Service>)
    requires w.config.tag == "t"
    ensures FullSnapshot(w, list, s) && s.Keys == {r.id} && Owner(s[r.id].tags).None?
    ensures list == [ServiceOf(s[r.id])] && Count(list, o.task.id) == 0
  {
    var entry := Registration(r.id, r.name, 1, "h", ["t"], false);
    s := map[r.id := entry];
    list := [ServiceOf(entry)];
    assert Owner(["t"]) == Owner([]) == None;
    assert list[..|list| - 1] == [];
    assert TaggedIds(s, s.Keys, "t") == {r.id};
  }

  /** Without `Tidy` convergence fails: the healthy task's entry is overwritten, and then
      removed in place of the ownerless one. After the pass the task has no entry. */
  lemma OwnerlessEntryIsLost() returns (w: World, s: Services, list: seq<Service>, o: Order, r: Registration)
    ensures Ordinary(w) && FullSnapshot(w, list, s) && o.app in w.apps && o.task in o.app.tasks
    ensures NamedInRange(o.app, o.task) && NeedsRegistration(o.app, o.task, list)
    ensures RegistrationsOf(w.config, w.dns, o.task, o.app) == [r] && r in Wanted(w, list)
    ensures r.id in s && Owner(s[r.id].tags).None? && r.id !in Pass(w, s, list)
  {
    w, o := OneTask();
    r := RegistrationsOf(w.config, w.dns, o.task, o.app)[0];
    s, list := OwnerlessEntry(w, o, r);
    assert o.app in w.apps && o.task in o.app.tasks;
    TodoMembers(w.apps, list);
    TodoFromApps(w, list);
    OrdersArePlanned(w, Todo(w.apps, list), o);
    assert list[0] in list && Stale(list[0], Running(w.apps), w.latest);
    WantedSurvivesIff(w, s, list, r);
  }

  lemma WantedIsNotStale(w: World, s: Services, list: seq<Service>, id: ServiceId, t: TaskId)
    requires Tidy(s, Running(w.apps)) && FullSnapshot(w, list, s) && t in Running(w.apps) && Begins(id, t)
    ensures id !in IdsOf(StaleIn(w, list))
  {
    forall e | e in list && e.id == id ensures !Stale(e, Running(w.apps), w.latest) {
      assert Owner(s[id].tags) == Some(t);
    }
  }

  /** Convergence: after the pass every registration of every healthy task that had
      too few is there, under its ID and with that task's data. */
  lemma MissingTasksAreRegistered(w: World, s: Services, list: seq<Service>, o: Order, r: Registration)
    requires Ordinary(w) && Tidy(s, Running(w.apps)) && FullSnapshot(w, list, s)
    requires o.app in w.apps && o.task in o.app.tasks && NeedsRegistration(o.app, o.task, list)
    requires NamedInRange(o.app, o.task) && r in RegistrationsOf(w.config, w.dns, o.task, o.app)
    ensures r.id in Pass(w, s, list)
    ensures Pass(w, s, list)[r.id] in RegistrationsOf(w.config, w.dns, o.task, o.app)
  {
    var orders := Todo(w.apps, list);
    TodoMembers(w.apps, list);
    TodoFromApps(w, list);
    RunningTask(w, o);
    RegistrationNamesItsOwner(w.config, w.dns, o.task, o.app, r);
    OrdersArePlanned(w, orders, o);
    LastOfPlanned(w, orders, o, r.id);
    WantedIsNotStale(w, s, list, r.id, o.task.id);
    PassEntry(w, s, list, r.id);
  }

  /** Convergence: every service with the configured tag that is left belongs to a
      task that Marathon runs. */
  lemma OnlyLiveServicesRemain(w: World, s: Services, list: seq<Service>, id: ServiceId)
    requires Ordinary(w) && FullSnapshot(w, list, s)
    requires id in Pass(w, s, list) && w.config.tag in Pass(w, s, list)[id].tags
    ensures !Stale(ServiceOf(Pass(w, s, list)[id]), Running(w.apps), w.latest)
  {
    PassEntry(w, s, list, id);
    var r := LastWith(Wanted(w, list), id);
    if r.Some? {
      TodoFromApps(w, list);
      var o := PlannedBelongs(w, Todo(w.apps, list), r.value);
    } else {
      assert ServiceOf(s[id]) in list;
    }
  }

  // ---- idempotence ----------------------------------------------------------

  /** A longer list of distinct services counts at least as many. */
  lemma {:induction false} CountMonotone(list: seq<Service>, list': seq<Service>, t: TaskId)
    requires forall i, j :: 0 <= i < j < |list| ==> list[i] != list[j]
    requires forall e :: e in list && Owner(e.tags) == Some(t) ==> e in list'
    ensures Count(list, t) <= Count(list', t)
    decreases |list|
  {
    if list != [] {
      var init, last := list[..|list| - 1], list[|list| - 1];
      if Owner(last.tags) == Some(t) {
        var k :| 0 <= k < |list'| && list'[k] == last;
        var rest := list'[..k] + list'[k + 1..];
        CountWithout(list', k, t);
        forall e | e in init && Owner(e.tags) == Some(t) ensures e in rest {
          assert e in list';
          var m :| 0 <= m < |list'| && list'[m] == e;
          assert m < k ==> rest[m] == e;
          assert m > k ==> rest[m - 1] == e;
        }
        CountMonotone(init, rest, t);
      } else {
        CountMonotone(init, list', t);
      }
    }
  }

  lemma {:induction false} CountAppend(a: seq<Service>, b: seq<Service>, t: TaskId)
    ensures Count(a + b, t) == Count(a, t) + Count(b, t)
  {
    if b == [] {
      assert a + b == a;
    } else {
      assert (a + b)[..|a + b| - 1] == a + b[..|b| - 1];
      CountAppend(a, b[..|b| - 1], t);
    }
  }

  lemma CountWithout(list: seq<Service>, k: nat, t: TaskId)
    requires k < |list| && Owner(list[k].tags) == Some(t)
    ensures Count(list, t) == Count(list[..k] + list[k + 1..], t) + 1
  {
    assert list == list[..k] + [list[k]] + list[k + 1..];
    CountAppend(list[..k] + [list[k]], list[k + 1..], t);
    CountAppend(list[..k], [list[k]], t);
    CountAppend(list[..k], list[k + 1..], t);
    assert [list[k]][..0] == [];
  }

  /** A registration that a running task had before, and did not lack, is kept as it was. */
  lemma UntouchedIsKept(w: World, s: Services, list: seq<Service>, o: Order, id: ServiceId)
    requires Ordinary(w) && Tidy(s, Running(w.apps)) && FullSnapshot(w, list, s)
    requires o.app in w.apps && o.task in o.app.tasks && o !in Todo(w.apps, list)
    requires id in s && w.config.tag in s[id].tags && Owner(s[id].tags) == Some(o.task.id)
    ensures id in Pass(w, s, list) && Pass(w, s, list)[id] == s[id]
  {
    PassEntry(w, s, list, id);
    RunningTask(w, o);
    assert LastWith(Wanted(w, list), id).None? by {
      var r := LastWith(Wanted(w, list), id);
      if r.Some? {
        TodoFromApps(w, list);
        var o' := PlannedBelongs(w, Todo(w.apps, list), r.value);
        assert Owner(s[id].tags) == Some(o'.task.id);
        SameTask(w, o, o');
      }
    }
    forall e | e in list && e.id == id ensures !Stale(e, Running(w.apps), w.latest) {
      assert e == ServiceOf(s[id]);
    }
  }

  /** The second pass asks for nothing that the first did not. */
  lemma NothingNewIsWanted(w: World, s: Services, list: seq<Service>, list': seq<Service>, o: Order)
    requires Ordinary(w) && Tidy(s, Running(w.apps)) && FullSnapshot(w, list, s)
    requires FullSnapshot(w, list', Pass(w, s, list)) && o in Todo(w.apps, list')
    ensures o in Todo(w.apps, list)
  {
    TodoMembers(w.apps, list);
    TodoMembers(w.apps, list');
    if o !in Todo(w.apps, list) {
      forall e | e in list && Owner(e.tags) == Some(o.task.id) ensures e in list' {
        UntouchedIsKept(w, s, list, o, e.id);
      }
      CountMonotone(list, list', o.task.id);
    }
  }

  /** Idempotence: a second pass changes nothing and deregisters nothing, even if it
      registers some tasks once more. */
  lemma SecondPassIsIdle(w: World, s: Services, list: seq<Service>, list': seq<Service>)
    requires Ordinary(w) && Tidy(s, Running(w.apps)) && FullSnapshot(w, list, s)
    requires FullSnapshot(w, list', Pass(w, s, list))
    ensures StaleIn(w, list') == []
    ensures Pass(w, Pass(w, s, list), list') == Pass(w, s, list)
  {
    var s1 := Pass(w, s, list);
    var s2 := Pass(w, s1, list');
    forall e | e in list' ensures !Stale(e, Running(w.apps), w.latest) {
      OnlyLiveServicesRemain(w, s, list, e.id);
    }
    assert StaleIn(w, list') == [] by {
      if StaleIn(w, list') != [] {
        NonEmpty(StaleIn(w, list'));
      }
    }
    forall id ensures (id in s2 <==> id in s1) && (id in s1 ==> s2[id] == s1[id]) {
      SecondPassEntry(w, s, list, list', id);
    }
  }

  lemma NonEmpty<T>(s: seq<T>)
    requires s != []
    ensures exists x :: x in s
  {
    assert s[0] in s;
  }

  lemma SecondPassEntry(w: World, s: Services, list: seq<Service>, list': seq<Service>, id: ServiceId)
    requires Ordinary(w) && Tidy(s, Running(w.apps)) && FullSnapshot(w, list, s)
    requires FullSnapshot(w, list', Pass(w, s, list)) && StaleIn(w, list') == []
    ensures var s1 := Pass(w, s, list); var s2 := Pass(w, s1, list');
            (id in s2 <==> id in s1) && (id in s1 ==> s2[id] == s1[id])
  {
    var s1 := Pass(w, s, list);
    PassEntry(w, s1, list', id);
    PassEntry(w, s, list, id);
    var r := LastWith(Wanted(w, list'), id);
    if r.Some? {
      TodoFromApps(w, list);
      TodoFromApps(w, list');
      var o := PlannedBelongs(w, Todo(w.apps, list'), r.value);
      NothingNewIsWanted(w, s, list, list', o);
      LastOfPlanned(w, Todo(w.apps, list'), o, id);
      LastOfPlanned(w, Todo(w.apps, list), o, id);
      WantedIsNotStale(w, s, list, id, o.task.id);
    }
  }

  // ---- accounting -----------------------------------------------------------

  lemma SetSizes<T>(before: set<T>, created: set<T>, gone: set<T>, after: set<T>)
    requires created !! before && gone <= before && after == before + created - gone
    ensures |after| == |before| + |created| - |gone|
  {
    assert |before + created| == |before| + |created|;
    assert before + created == after + gone;
  }

  function Created(w: World, s: Services, list: seq<Service>): (ids: set<ServiceId>)
    requires Ordinary(w)
    ensures forall id :: id in ids <==> id !in s && LastWith(Wanted(w, list), id).Some?
  {
    var rs := Wanted(w, list);
    var ids := set r | r in rs :: r.id;
    assert forall id :: id in ids ==> LastWith(rs, id).Some?;
    ids - s.Keys
  }

  lemma PassKeys(w: World, s: Services, list: seq<Service>)
    requires Ordinary(w)
    ensures Pass(w, s, list).Keys == s.Keys + Created(w, s, list) - IdsOf(StaleIn(w, list))
  {
    var after, created, gone := Pass(w, s, list).Keys, Created(w, s, list), IdsOf(StaleIn(w, list));
    forall id ensures id in after <==> id in s.Keys + created - gone {
      PassEntry(w, s, list, id);
    }
  }

  lemma StaleAreListed(w: World, s: Services, list: seq<Service>)
    requires FullSnapshot(w, list, s)
    ensures IdsOf(StaleIn(w, list)) <= s.Keys
    ensures |IdsOf(StaleIn(w, list))| == Dropped(StaleIn(w, list), {})
  {
    StaleIdsAreDistinct(list, Running(w.apps), w.latest);
    DistinctIdsCount(StaleIn(w, list), {});
    assert IdsOf(StaleIn(w, list)) - {} == IdsOf(StaleIn(w, list));
  }

  /** Without failures the registry grows by the newly created IDs and shrinks by
      the number of deregistrations that the pass counts. */
  lemma SizeChange(w: World, s: Services, list: seq<Service>)
    requires Ordinary(w) && FullSnapshot(w, list, s)
    ensures |Pass(w, s, list)| == |s| + |Created(w, s, list)| - Dropped(StaleIn(w, list), {})
  {
    var after, created, gone := Pass(w, s, list).Keys, Created(w, s, list), IdsOf(StaleIn(w, list));
    PassKeys(w, s, list);
    StaleAreListed(w, s, list);
    assert created !! s.Keys;
    SetSizes(s.Keys, created, gone, after);
  }

  lemma WholeListing(s: Services, tag: string)
    ensures Listing(s, Some([Datacenter(s.Keys, true, {})]), tag) == Some(s.Keys)
  {
    var dcs := [Datacenter(s.Keys, true, {})];
    assert dcs[..|dcs| - 1] == [];
    assert Visible(dcs) == Visible([]) + s.Keys == s.Keys;
    assert forall i :: 0 <= i < |dcs| ==> Served(s, dcs[i], tag);
  }

  /** Two ticks of the sync job on the real objects: the second leaves the registry
      exactly as the first left it. */
  method TwoTicks(sync: Sync) returns (first: Outcome, second: Outcome, ghost between: Services)
    requires sync.marathon.apps.Some? && (sync.force || sync.marathon.leadership.Leading?)
    requires sync.registry.failRegister == sync.registry.failDeregister == {}
    requires var w := World(sync.registry.config, sync.registry.dns, sync.marathon.apps.value, sync.marathon.tasks);
             && Ordinary(w) && Tidy(sync.registry.services, Running(w.apps))
             && OwnersDotted(sync.registry.services, sync.registry.services.Keys, w.config.tag, Running(w.apps))
    requires Keyed(sync.registry.services)
    modifies sync.registry`services
    ensures first.Synced? && second.Synced?
    ensures exists list ::
              IsSnapshot(list, old(sync.registry.services), old(sync.registry.services).Keys,
                         sync.registry.config.tag) &&
              between == AfterSync(sync.registry.config, sync.registry.dns, {}, {}, old(sync.registry.services),
                                   sync.marathon.apps.value, list, sync.marathon.tasks)
    ensures sync.registry.services == between
    ensures second.deregistered == second.deregisterErrors == 0
  {
    ghost var w := World(sync.registry.config, sync.registry.dns, sync.marathon.apps.value, sync.marathon.tasks);
    ghost var s := sync.registry.services;
    ghost var list, list';
    var everything := Some([Datacenter(sync.registry.services.Keys, true, {})]);
    WholeListing(sync.registry.services, w.config.tag);
    first, list := sync.SyncServices(everything);
    between := sync.registry.services;
    assert between == Pass(w, s, list);
    OwnersStayDotted(w, s, list);
    everything := Some([Datacenter(sync.registry.services.Keys, true, {})]);
    WholeListing(sync.registry.services, w.config.tag);
    second, list' := sync.SyncServices(everything);
    SecondPassIsIdle(w, s, list, list');
  }

  lemma OwnersStayDotted(w: World, s: Services, list: seq<Service>)
    requires Ordinary(w) && OwnersDotted(s, s.Keys, w.config.tag, Running(w.apps))
    ensures OwnersDotted(Pass(w, s, list), Pass(w, s, list).Keys, w.config.tag, Running(w.apps))
  {
    var s' := Pass(w, s, list);
    TodoFromApps(w, list);
    forall id | id in s' && w.config.tag in s'[id].tags && Owner(s'[id].tags).Some?
      ensures Owner(s'[id].tags).value in Running(w.apps) || '.' in Owner(s'[id].tags).value
    {
      PassEntry(w, s, list, id);
      if LastWith(Wanted(w, list), id).Some? {
        var o := PlannedBelongs(w, Todo(w.apps, list), LastWith(Wanted(w, list), id).value);
      }
    }
  }
}
