/** The service registry: what is registered for a task, and the operations that
    add and remove entries. */
module Registry {
  import opened Text
  import opened Identity
  import opened Placeholders
  import opened Planning

  datatype Config = Config(tag: string, separator: string, enableTagOverride: bool)

  datatype Registration = Registration(id: ServiceId, name: string, port: int, address: string, tags: seq<string>,
                                       enableTagOverride: bool)

  datatype Service = Service(id: ServiceId, name: string, tags: seq<string>, agentAddress: string,
                             enableTagOverride: bool)

  /** Registered services by ID. */
  type Services = map<ServiceId, Registration>

  predicate Keyed(s: Services) { forall id :: id in s ==> s[id].id == id }

  function ServiceOf(r: Registration): Service
  {
    Service(r.id, r.name, r.tags, r.address, r.enableTagOverride)
  }

  // ---- registrations of a task ----------------------------------------------

  function RegistrationFor(config: Config, address: string, task: Task, intent: Intent): Registration
  {
    Registration(ServiceIdOf(task.id, intent.name, intent.port), intent.name, intent.port, address,
                 [config.tag] + intent.tags + [OwnerTag(task.id)], config.enableTagOverride)
  }

  /** The registrations of a task; none if its host does not resolve. */
  function RegistrationsOf(config: Config, dns: map<string, string>, task: Task, app: App): seq<Registration>
    requires NamedInRange(app, task)
  {
    if task.host !in dns then []
    else
      var intents := Intents(app, task, config.separator);
      seq(|intents|, i requires 0 <= i < |intents| => RegistrationFor(config, dns[task.host], task, intents[i]))
  }

  /** The registration of an intent, with everything that it carries. */
  predicate Describes(config: Config, address: string, task: Task, intent: Intent, r: Registration)
  {
    && r.id == ServiceIdOf(task.id, intent.name, intent.port)
    && r.name == intent.name && r.port == intent.port && r.address == address
    && r.tags == [config.tag] + intent.tags + ["marathon-task:" + task.id]
    && r.enableTagOverride == config.enableTagOverride
  }

  /** One registration for each intent of the plan, in order. */
  predicate FollowsPlan(config: Config, address: string, task: Task, intents: seq<Intent>, rs: seq<Registration>)
  {
    |rs| == |intents| && forall i :: 0 <= i < |rs| ==> Describes(config, address, task, intents[i], rs[i])
  }

  lemma RegistrationsFollowThePlan(config: Config, dns: map<string, string>, task: Task, app: App)
    requires NamedInRange(app, task)
    ensures var rs := RegistrationsOf(config, dns, task, app);
            if task.host in dns then
              FollowsPlan(config, dns[task.host], task, Intents(app, task, config.separator), rs)
            else rs == []
  {
  }

  /** `marathonTaskToConsulServices`. */
  method MarathonTaskToConsulServices(config: Config, dns: map<string, string>, task: Task, app: App)
    returns (registrations: Option<seq<Registration>>)
    requires NamedInRange(app, task)
    ensures registrations == if task.host in dns then Some(RegistrationsOf(config, dns, task, app)) else None
    ensures registrations.Some? ==>
              FollowsPlan(config, dns[task.host], task, Intents(app, task, config.separator), registrations.value)
  {
    if task.host !in dns {
      return None;
    }
    var rs: seq<Registration> := [];
    var intents := RegistrationIntents(app, task, config.separator);
    ghost var all := RegistrationsOf(config, dns, task, app);
    for i := 0 to |intents|
      invariant rs == all[..i]
    {
      var r := RegistrationForIntent(config, dns[task.host], task, intents[i]);
      TakeOneMore(all, i);
      rs := rs + [r];
    }
    assert all[..|all|] == all;
    return Some(rs);
  }

  /** The body of the loop of `marathonTaskToConsulServices`. */
  method RegistrationForIntent(config: Config, address: string, task: Task, intent: Intent) returns (r: Registration)
    ensures r == RegistrationFor(config, address, task, intent)
  {
    var tags := [config.tag] + intent.tags;
    tags := tags + [OwnerTag(task.id)];
    var id := ServiceIdOf(task.id, intent.name, intent.port);
    return Registration(id, intent.name, intent.port, address, tags, config.enableTagOverride);
  }

  // ---- owners ---------------------------------------------------------------

  predicate TagValued(value: string) { value == TAG || TAG + ":" <= value }

  /** No label key that can become a tag looks like an owner tag. */
  predicate CleanLabels(labels: Labels)
  {
    forall l :: l in labels && TagValued(l.value) ==> !(OWNER_PREFIX <= l.key)
  }

  predicate CleanApp(config: Config, app: App)
  {
    && !(OWNER_PREFIX <= config.tag)
    && CleanLabels(app.labels)
    && forall d :: d in Definitions(app) ==> CleanLabels(d.labels)
  }

  predicate NoOwner(tags: seq<string>) { forall t :: t in tags ==> !(OWNER_PREFIX <= t) }

  lemma OwnerPrefixHasNoDigit()
    ensures (forall c :: c in OWNER_PREFIX ==> !IsDigit(c)) && OWNER_PREFIX[|OWNER_PREFIX| - 1] != '-'
  {
  }

  lemma CleanTags(labels: Labels, refs: seq<PortRef>)
    requires forall k :: k in TagKeys(labels) ==> !(OWNER_PREFIX <= k)
    ensures NoOwner(TagsOf(labels, refs))
  {
    OwnerPrefixHasNoDigit();
    forall i | 0 <= i < |TagKeys(labels)| ensures !(OWNER_PREFIX <= TagsOf(labels, refs)[i]) {
      var key := TagKeys(labels)[i];
      assert key in TagKeys(labels);
      if OWNER_PREFIX <= Resolve(key, refs) {
        ResolveForgesNothing(OWNER_PREFIX, key, refs);
      }
    }
  }

  lemma CleanExtract(name: string, labels: Labels)
    requires CleanLabels(labels)
    ensures forall k :: k in TagKeys(Extract(name, labels)) ==> !(OWNER_PREFIX <= k)
  {
    forall k | k in TagKeys(Extract(name, labels)) ensures !(OWNER_PREFIX <= k) {
      ScopedTagsDoNotLeak(name, labels, k);
      var l :| l in labels && l.key == k && TagFor(l, name);
      if l.key == CONSUL {
        assert CONSUL[0] != OWNER_PREFIX[0];
      } else if l.value != TAG {
        assert TAG + ":" <= l.value by {
          assert (TAG + ":" + name)[..|TAG| + 1] == (TAG + ":" + name + ":")[..|TAG| + 1] == TAG + ":";
        }
      }
    }
  }

  lemma CleanIntent(config: Config, app: App, task: Task, i: nat)
    requires NamedInRange(app, task) && CleanApp(config, app) && i < |Intents(app, task, config.separator)|
    ensures NoOwner(Intents(app, task, config.separator)[i].tags)
  {
    var refs := PlaceholderRefs(Definitions(app), task.ports);
    CleanTags(app.labels, refs);
    if ConsulDefinitions(Definitions(app)) != [] {
      var ds := IntentsFollowDefinitions(app, task, config.separator);
      var d := ds[i];
      assert NamesOneService(app, d);
      var o := Definitions(app)[d.index];
      assert o in Definitions(app);
      CleanExtract(d.name, o.labels);
      CleanTags(d.labels, refs);
    }
  }

  /** The owner tag round trip: every registration built for a task is read back as
      the task's, carries the configured tag, and has an ID that begins with the task's. */
  lemma RegistrationNamesItsOwner(config: Config, dns: map<string, string>, task: Task, app: App, r: Registration)
    requires NamedInRange(app, task) && CleanApp(config, app) && r in RegistrationsOf(config, dns, task, app)
    ensures Owner(r.tags) == Some(task.id) && SingleOwner(r.tags)
    ensures config.tag in r.tags
    ensures r.id == ServiceIdOf(task.id, r.name, r.port) && Begins(r.id, task.id)
  {
    var i :| 0 <= i < |RegistrationsOf(config, dns, task, app)| && RegistrationsOf(config, dns, task, app)[i] == r;
    CleanIntent(config, app, task, i);
    CleanRegistration(config, dns[task.host], task, Intents(app, task, config.separator)[i]);
  }

  lemma CleanRegistration(config: Config, address: string, task: Task, intent: Intent)
    requires !(OWNER_PREFIX <= config.tag) && NoOwner(intent.tags)
    ensures var r := RegistrationFor(config, address, task, intent);
            && Owner(r.tags) == Some(task.id) && SingleOwner(r.tags) && config.tag in r.tags
            && r.id == ServiceIdOf(task.id, r.name, r.port) && Begins(r.id, task.id)
  {
    var r := RegistrationFor(config, address, task, intent);
    var before := [config.tag] + intent.tags;
    assert r.tags == before + [OwnerTag(task.id)] && r.tags[0] == config.tag;
    assert NoOwner(before);
    AppendedOwner(before, task.id);
    assert r.id[..|task.id| + 1] == task.id + "_";
  }

  /** The ID lies in the space of the task's service IDs. */
  predicate Begins(id: ServiceId, task: TaskId) { task + "_" <= id }

  lemma BeginsWithOne(id: ServiceId, t: TaskId, t': TaskId)
    requires Begins(id, t) && Begins(id, t')
    ensures !Apart(t, t')
  {
    if |t| <= |t'| {
      assert t + "_" == id[..|t| + 1] == id[..|t'| + 1][..|t| + 1];
    } else {
      assert t' + "_" == id[..|t'| + 1] == id[..|t| + 1][..|t'| + 1];
    }
  }

  /** All owner tags agree. */
  predicate SingleOwner(tags: seq<string>)
  {
    forall t :: t in tags && OWNER_PREFIX <= t ==> Owner(tags) == Some(t[|OWNER_PREFIX|..])
  }

  lemma {:induction false} SingleOwnerIsFound(tags: seq<string>, task: TaskId)
    requires SingleOwner(tags)
    ensures OwnerTag(task) in tags <==> Owner(tags) == Some(task)
  {
    if OwnerTag(task) in tags {
      assert OwnerTag(task)[|OWNER_PREFIX|..] == task;
    }
    if Owner(tags) == Some(task) {
      FirstOwnerTag(tags);
    }
  }

  lemma {:induction false} FirstOwnerTag(tags: seq<string>)
    requires Owner(tags).Some?
    ensures OwnerTag(Owner(tags).value) in tags
  {
    if OWNER_PREFIX <= tags[0] {
      assert tags[0] == OWNER_PREFIX + tags[0][|OWNER_PREFIX|..];
      assert tags[0] in tags;
    } else {
      FirstOwnerTag(tags[1..]);
      assert forall t :: t in tags[1..] ==> t in tags;
    }
  }

  // ---- the effect of registering and deregistering ---------------------------

  /** Register one after the other; a failing one is skipped. */
  function PutAll(s: Services, rs: seq<Registration>, failing: set<ServiceId>): Services
  {
    if rs == [] then s
    else
      var r := rs[|rs| - 1];
      var s' := PutAll(s, rs[..|rs| - 1], failing);
      if r.id in failing then s' else s'[r.id := r]
  }

  /** The last registration with an ID. */
  function LastWith(rs: seq<Registration>, id: ServiceId): (r: Option<Registration>)
    ensures r.Some? ==> r.value in rs && r.value.id == id
    ensures r.None? ==> forall q :: q in rs ==> q.id != id
  {
    if rs == [] then None
    else if rs[|rs| - 1].id == id then Some(rs[|rs| - 1])
    else
      assert forall q :: q in rs <==> q == rs[|rs| - 1] || q in rs[..|rs| - 1];
      LastWith(rs[..|rs| - 1], id)
  }

  /** Entry by entry: the last successful registration counts, and nothing else changes. */
  lemma {:induction false} PutAllEntry(s: Services, rs: seq<Registration>, failing: set<ServiceId>, id: ServiceId)
    ensures var r := if id in failing then None else LastWith(rs, id);
            && (id in PutAll(s, rs, failing) <==> id in s || r.Some?)
            && (r.Some? ==> PutAll(s, rs, failing)[id] == r.value)
            && (r.None? && id in s ==> PutAll(s, rs, failing)[id] == s[id])
  {
    if rs != [] {
      PutAllEntry(s, rs[..|rs| - 1], failing, id);
    }
  }

  lemma {:induction false} PutAllAppends(s: Services, rs: seq<Registration>, rs': seq<Registration>,
                                         failing: set<ServiceId>)
    ensures PutAll(s, rs + rs', failing) == PutAll(PutAll(s, rs, failing), rs', failing)
  {
    if rs' == [] {
      assert rs + rs' == rs;
    } else {
      assert (rs + rs')[..|rs + rs'| - 1] == rs + rs'[..|rs'| - 1];
      PutAllAppends(s, rs, rs'[..|rs'| - 1], failing);
    }
  }

  /** The registry after registering the plan of a task: under the ID of every intent that
      did not fail lies an entry with its name and port, made for an intent of the plan;
      every other ID keeps what it had. */
  ghost predicate PlanEntered(config: Config, address: string, task: Task, intents: seq<Intent>,
                              failing: set<ServiceId>, s: Services, s': Services)
  {
    && (forall i :: 0 <= i < |intents| && ServiceIdOf(task.id, intents[i].name, intents[i].port) !in failing ==>
          Entered(config, address, task, intents, intents[i], s'))
    && forall id :: id in failing || !PlannedId(task, intents, id) ==>
         (id in s' <==> id in s) && (id in s ==> s'[id] == s[id])
  }

  predicate Entered(config: Config, address: string, task: Task, intents: seq<Intent>, intent: Intent, s': Services)
  {
    var id := ServiceIdOf(task.id, intent.name, intent.port);
    && id in s' && s'[id].name == intent.name && s'[id].port == intent.port
    && exists j :: 0 <= j < |intents| && Describes(config, address, task, intents[j], s'[id])
  }

  predicate PlannedId(task: Task, intents: seq<Intent>, id: ServiceId)
  {
    exists i :: 0 <= i < |intents| && id == ServiceIdOf(task.id, intents[i].name, intents[i].port)
  }

  lemma PlanIsEntered(config: Config, dns: map<string, string>, task: Task, app: App, failing: set<ServiceId>,
                      s: Services)
    requires NamedInRange(app, task) && task.host in dns
    ensures PlanEntered(config, dns[task.host], task, Intents(app, task, config.separator), failing, s,
                        PutAll(s, RegistrationsOf(config, dns, task, app), failing))
  {
    var intents, rs := Intents(app, task, config.separator), RegistrationsOf(config, dns, task, app);
    var s' := PutAll(s, rs, failing);
    forall i | 0 <= i < |intents| && ServiceIdOf(task.id, intents[i].name, intents[i].port) !in failing
      ensures Entered(config, dns[task.host], task, intents, intents[i], s')
    {
      assert rs[i] in rs;
      IntentIsEntered(config, dns, task, app, failing, s, i);
    }
    forall id | id in failing || !PlannedId(task, intents, id)
      ensures (id in s' <==> id in s) && (id in s ==> s'[id] == s[id])
    {
      PutAllEntry(s, rs, failing, id);
      if LastWith(rs, id).Some? {
        var j :| 0 <= j < |rs| && rs[j] == LastWith(rs, id).value;
        assert rs[j].id == ServiceIdOf(task.id, intents[j].name, intents[j].port);
      }
    }
  }

  lemma IntentIsEntered(config: Config, dns: map<string, string>, task: Task, app: App, failing: set<ServiceId>,
                        s: Services, i: nat)
    requires NamedInRange(app, task) && task.host in dns && i < |RegistrationsOf(config, dns, task, app)|
    requires RegistrationsOf(config, dns, task, app)[i].id !in failing
    ensures Entered(config, dns[task.host], task, Intents(app, task, config.separator),
                    Intents(app, task, config.separator)[i],
                    PutAll(s, RegistrationsOf(config, dns, task, app), failing))
  {
    var intents, rs := Intents(app, task, config.separator), RegistrationsOf(config, dns, task, app);
    RegistrationsFollowThePlan(config, dns, task, app);
    assert rs[i] in rs;
    PutAllEntry(s, rs, failing, rs[i].id);
    var j :| 0 <= j < |rs| && rs[j] == LastWith(rs, rs[i].id).value;
    ServiceIdDeterminesSlot(task.id, intents[i].name, intents[i].port, intents[j].name, intents[j].port);
  }

  /** From label to registry: every comma-separated part of a port's consul label, if the
      task has the port, has its entry after the task was registered, with the name that the
      part asks for, that port, and the task as its owner. */
  lemma EveryPartIsRegistered(config: Config, dns: map<string, string>, task: Task, app: App, failing: set<ServiceId>,
                              s: Services, k: nat, value: string, j: nat) returns (intent: Intent)
    requires NamedInRange(app, task) && task.host in dns && CleanApp(config, app)
    requires k < |Definitions(app)| && k < |task.ports|
    requires HasLabel(Definitions(app)[k].labels, "consul", value) && j < |Split(value, ',')|
    ensures Serves(app, task, config.separator, k, value, Split(value, ',')[j], intent)
    ensures var id := ServiceIdOf(task.id, intent.name, intent.port);
            var s' := PutAll(s, RegistrationsOf(config, dns, task, app), failing);
            id !in failing ==>
              && id in s' && s'[id].name == intent.name && s'[id].port == intent.port == task.ports[k]
              && Owner(s'[id].tags) == Some(task.id)
  {
    var i := EveryPartHasItsIntent(app, task, config.separator, k, value, j);
    intent := Intents(app, task, config.separator)[i];
    var rs := RegistrationsOf(config, dns, task, app);
    RegistrationsFollowThePlan(config, dns, task, app);
    if rs[i].id !in failing {
      IntentIsEntered(config, dns, task, app, failing, s, i);
      assert rs[i] in rs;
      PutAllEntry(s, rs, failing, rs[i].id);
      RegistrationNamesItsOwner(config, dns, task, app, LastWith(rs, rs[i].id).value);
    }
  }

  /** Every registration reaches its agent. */
  predicate NoneFails(rs: seq<Registration>, failing: set<ServiceId>) { forall r :: r in rs ==> r.id !in failing }

  /** The registrations of one task, or the failure to resolve its host. */
  datatype Batch = Batch(resolved: bool, registrations: seq<Registration>) {
    /** `Register` reports success. */
    predicate Succeeds(failing: set<ServiceId>)
    {
      resolved && NoneFails(registrations, failing)
    }
  }

  function BatchOf(config: Config, dns: map<string, string>, task: Task, app: App): Batch
    requires NamedInRange(app, task)
  {
    Batch(task.host in dns, RegistrationsOf(config, dns, task, app))
  }

  lemma SuccessIsWrittenOut(config: Config, dns: map<string, string>, task: Task, app: App, failing: set<ServiceId>)
    requires NamedInRange(app, task)
    ensures BatchOf(config, dns, task, app).Succeeds(failing) <==>
            task.host in dns &&
            forall id :: PlannedId(task, Intents(app, task, config.separator), id) ==> id !in failing
  {
    var intents, rs := Intents(app, task, config.separator), RegistrationsOf(config, dns, task, app);
    if task.host in dns {
      assert forall r :: r in rs ==> PlannedId(task, intents, r.id);
      forall id | PlannedId(task, intents, id) ensures exists r :: r in rs && r.id == id {
        var i :| 0 <= i < |intents| && id == ServiceIdOf(task.id, intents[i].name, intents[i].port);
        assert rs[i] in rs;
      }
    }
  }

  /** All registrations of some batches. */
  function Planned(batches: seq<Batch>): seq<Registration>
  {
    if batches == [] then [] else Planned(batches[..|batches| - 1]) + batches[|batches| - 1].registrations
  }

  function Succeeding(batches: seq<Batch>, failing: set<ServiceId>): (n: nat)
    ensures n <= |batches|
  {
    if batches == [] then 0
    else
      Succeeding(batches[..|batches| - 1], failing) + if batches[|batches| - 1].Succeeds(failing) then 1 else 0
  }

  /** The registry and the two counters of a sync pass after registering some batches. */
  predicate Registered(batches: seq<Batch>, failing: set<ServiceId>, s: Services, s': Services, registered: nat,
                       errors: nat)
  {
    && s' == PutAll(s, Planned(batches), failing)
    && registered == Succeeding(batches, failing)
    && registered + errors == |batches|
  }

  lemma RegisteredOneMore(batches: seq<Batch>, b: Batch, failing: set<ServiceId>, s: Services, s': Services, n: nat,
                          m: nat)
    requires Registered(batches, failing, s, s', n, m)
    ensures var s'' := PutAll(s', b.registrations, failing);
            if b.Succeeds(failing) then Registered(batches + [b], failing, s, s'', n + 1, m)
            else Registered(batches + [b], failing, s, s'', n, m + 1)
  {
    assert (batches + [b])[..|batches + [b]| - 1] == batches;
    PutAllAppends(s, Planned(batches), b.registrations, failing);
  }

  lemma {:induction false} PlannedAppends(batches: seq<Batch>, more: seq<Batch>, failing: set<ServiceId>)
    ensures Planned(batches + more) == Planned(batches) + Planned(more)
    ensures Succeeding(batches + more, failing) == Succeeding(batches, failing) + Succeeding(more, failing)
  {
    if more == [] {
      assert batches + more == batches;
    } else {
      var init := more[..|more| - 1];
      assert (batches + more)[..|batches + more| - 1] == batches + init;
      PlannedAppends(batches, init, failing);
      assert Planned(batches) + (Planned(init) + more[|more| - 1].registrations) ==
             (Planned(batches) + Planned(init)) + more[|more| - 1].registrations;
    }
  }

  lemma RegisteredMore(batches: seq<Batch>, more: seq<Batch>, failing: set<ServiceId>,
                       s: Services, s': Services, s'': Services, n: nat, m: nat, n': nat, m': nat)
    requires Registered(batches, failing, s, s', n, m) && Registered(more, failing, s', s'', n', m')
    ensures Registered(batches + more, failing, s, s'', n + n', m + m')
  {
    PlannedAppends(batches, more, failing);
    PutAllAppends(s, Planned(batches), Planned(more), failing);
  }

  // ---- what Consul's catalogue answers --------------------------------------

  /** A datacenter: the entries it holds, whether it lists their names and tags, and the
      names for which it then fails to list the instances. */
  datatype Datacenter = Datacenter(ids: set<ServiceId>, answers: bool, failing: set<string>)

  predicate Separate(dcs: seq<Datacenter>) { forall i, j :: 0 <= i < j < |dcs| ==> dcs[i].ids !! dcs[j].ids }

  /** The datacenters, unless asking for them fails or no agent answers; an entry lies in one of them. */
  type Catalogue = c: Option<seq<Datacenter>> | c.Some? ==> Separate(c.value) witness None

  function TaggedIds(s: Services, visible: set<ServiceId>, tag: string): set<ServiceId>
  {
    set id | id in s && id in visible && tag in s[id].tags
  }

  function TaggedNames(s: Services, dc: Datacenter, tag: string): set<string>
  {
    set id | id in s && id in dc.ids && tag in s[id].tags :: s[id].name
  }

  function NamedIds(s: Services, dc: Datacenter, tag: string, names: set<string>): set<ServiceId>
  {
    set id | id in TaggedIds(s, dc.ids, tag) && s[id].name in names
  }

  /** A silent datacenter is skipped. */
  function Visible(dcs: seq<Datacenter>): set<ServiceId>
  {
    if dcs == [] then {} else Visible(dcs[..|dcs| - 1]) + if dcs[|dcs| - 1].answers then dcs[|dcs| - 1].ids else {}
  }

  predicate Served(s: Services, dc: Datacenter, tag: string) { dc.answers ==> dc.failing !! TaggedNames(s, dc, tag) }

  /** The IDs that a search by tag can see; nothing if one of its queries by name fails. */
  function Listing(s: Services, catalogue: Catalogue, tag: string): Option<set<ServiceId>>
  {
    if catalogue.Some? && forall i :: 0 <= i < |catalogue.value| ==> Served(s, catalogue.value[i], tag)
    then Some(Visible(catalogue.value)) else None
  }

  /** Each of these entries once, in any order, and nothing else. */
  predicate Lists(list: seq<Service>, s: Services, ids: set<ServiceId>)
  {
    && ids <= s.Keys
    && (forall i, j :: 0 <= i < j < |list| ==> list[i].id != list[j].id)
    && (forall e :: e in list ==> e.id in ids && e == ServiceOf(s[e.id]))
    && forall id :: id in ids ==> ServiceOf(s[id]) in list
  }

  lemma ListsAppend(a: seq<Service>, b: seq<Service>, s: Services, ids: set<ServiceId>, ids': set<ServiceId>)
    requires Lists(a, s, ids) && Lists(b, s, ids') && ids !! ids'
    ensures Lists(a + b, s, ids + ids')
  {
    var all := a + b;
    forall i, j | 0 <= i < j < |all| ensures all[i].id != all[j].id {
      assert i < |a| ==> all[i] == a[i] && a[i] in a;
      assert i >= |a| ==> all[i] == b[i - |a|];
      assert j < |a| ==> all[j] == a[j];
      assert j >= |a| ==> all[j] == b[j - |a|] && b[j - |a|] in b;
    }
  }

  /** Services whose tags name the task. */
  function IdsOfTask(s: Services, visible: set<ServiceId>, task: TaskId): set<ServiceId>
  {
    TaggedIds(s, visible, OwnerTag(task))
  }

  // ---- the same, entry by entry ---------------------------------------------

  /** Some datacenter that answers holds the entry. */
  predicate Listable(dcs: seq<Datacenter>, id: ServiceId)
  {
    exists i :: 0 <= i < |dcs| && dcs[i].answers && id in dcs[i].ids
  }

  /** No datacenter that answers fails on the name of an entry of its own with the tag. */
  predicate Queried(s: Services, catalogue: Catalogue, tag: string)
  {
    catalogue.Some? &&
    forall i, id ::
      (&& 0 <= i < |catalogue.value| && catalogue.value[i].answers && id in catalogue.value[i].ids
       && id in s && tag in s[id].tags) ==> s[id].name !in catalogue.value[i].failing
  }

  /** The entry under that ID as the catalogue lists it. */
  predicate Shows(e: Service, s: Services, id: ServiceId)
  {
    && id in s && e.id == id && e.name == s[id].name && e.tags == s[id].tags && e.agentAddress == s[id].address
    && e.enableTagOverride == s[id].enableTagOverride
  }

  /** Every entry with the tag that some answering datacenter holds is listed once, as it is,
      and there is nothing else. */
  predicate Found(list: seq<Service>, s: Services, dcs: seq<Datacenter>, tag: string)
  {
    && (forall i, j :: 0 <= i < j < |list| ==> list[i].id != list[j].id)
    && (forall e :: e in list ==> Shows(e, s, e.id) && tag in e.tags && Listable(dcs, e.id))
    && forall id :: id in s && tag in s[id].tags && Listable(dcs, id) ==> exists e :: e in list && Shows(e, s, id)
  }

  lemma {:induction false} VisibleIsListable(dcs: seq<Datacenter>, id: ServiceId)
    ensures id in Visible(dcs) <==> Listable(dcs, id)
  {
    if dcs != [] {
      var init, last := dcs[..|dcs| - 1], dcs[|dcs| - 1];
      VisibleIsListable(init, id);
      assert forall i :: 0 <= i < |init| ==> init[i] == dcs[i];
      assert Listable(dcs, id) <==> Listable(init, id) || (last.answers && id in last.ids);
    }
  }

  lemma ListingIsQueried(s: Services, catalogue: Catalogue, tag: string)
    ensures Listing(s, catalogue, tag).Some? <==> Queried(s, catalogue, tag)
    ensures Listing(s, catalogue, tag).Some? ==>
              forall id :: id in Listing(s, catalogue, tag).value <==> Listable(catalogue.value, id)
  {
    if catalogue.Some? {
      var dcs := catalogue.value;
      forall i | 0 <= i < |dcs|
        ensures Served(s, dcs[i], tag) <==>
                forall id :: dcs[i].answers && id in dcs[i].ids && id in s && tag in s[id].tags ==>
                  s[id].name !in dcs[i].failing
      {
        assert forall id :: id in s && id in dcs[i].ids && tag in s[id].tags ==>
                 s[id].name in TaggedNames(s, dcs[i], tag);
      }
      forall id ensures id in Visible(dcs) <==> Listable(dcs, id) {
        VisibleIsListable(dcs, id);
      }
    }
  }

  lemma SnapshotIsFound(list: seq<Service>, s: Services, catalogue: Catalogue, tag: string)
    requires Listing(s, catalogue, tag).Some? && IsSnapshot(list, s, Listing(s, catalogue, tag).value, tag)
    ensures Found(list, s, catalogue.value, tag)
  {
    ListingIsQueried(s, catalogue, tag);
    forall id | id in s && tag in s[id].tags && Listable(catalogue.value, id)
      ensures exists e :: e in list && Shows(e, s, id)
    {
      assert Shows(ServiceOf(s[id]), s, id) && ServiceOf(s[id]) in list;
    }
  }

  /** The entry has the tag and some answering datacenter holds it. */
  predicate Hit(s: Services, catalogue: Catalogue, tag: string, id: ServiceId)
  {
    catalogue.Some? && id in s && tag in s[id].tags && Listable(catalogue.value, id)
  }

  /** Exactly the hits went, except the failing ones, and there is an error if one failed. */
  ghost predicate HitsAreGone(s: Services, s': Services, ok: bool, catalogue: Catalogue, tag: string,
                              failing: set<ServiceId>)
  {
    && (forall id :: id in s' <==> id in s && (Hit(s, catalogue, tag, id) ==> id in failing))
    && (forall id :: id in s' ==> s'[id] == s[id])
    && (ok <==> forall id :: Hit(s, catalogue, tag, id) ==> id !in failing)
  }

  /** What deregistering a task does: its hits go, or nothing if the search fails. */
  ghost predicate TaskIsGone(s: Services, s': Services, ok: bool, catalogue: Catalogue, task: TaskId,
                             failing: set<ServiceId>)
  {
    var tag := "marathon-task:" + task;
    if Queried(s, catalogue, tag) then HitsAreGone(s, s', ok, catalogue, tag, failing) else !ok && s' == s
  }

  lemma HitsOfTask(s: Services, catalogue: Catalogue, task: TaskId, failing: set<ServiceId>)
    requires Listing(s, catalogue, OwnerTag(task)).Some?
    ensures var ids := IdsOfTask(s, Listing(s, catalogue, OwnerTag(task)).value, task);
            HitsAreGone(s, s - (ids - failing), ids !! failing, catalogue, OwnerTag(task), failing)
  {
    var ids := IdsOfTask(s, Listing(s, catalogue, OwnerTag(task)).value, task);
    ListingIsQueried(s, catalogue, OwnerTag(task));
    assert forall id :: id in ids <==> Hit(s, catalogue, OwnerTag(task), id);
  }

  /** The visible services of the task go, except the failing ones; nothing if there is no listing. */
  predicate Deregistered(s: Services, s': Services, ok: bool, listing: Option<set<ServiceId>>, task: TaskId,
                         failing: set<ServiceId>)
  {
    match listing
    case None => !ok && s' == s
    case Some(visible) =>
      var ids := IdsOfTask(s, visible, task);
      s' == s - (ids - failing) && (ok <==> ids !! failing)
  }

  lemma DeregistrationIsWrittenOut(s: Services, s': Services, ok: bool, catalogue: Catalogue, task: TaskId,
                                   failing: set<ServiceId>)
    requires Deregistered(s, s', ok, Listing(s, catalogue, OwnerTag(task)), task, failing)
    ensures TaskIsGone(s, s', ok, catalogue, task, failing)
  {
    assert OwnerTag(task) == "marathon-task:" + task;
    ListingIsQueried(s, catalogue, OwnerTag(task));
    if Listing(s, catalogue, OwnerTag(task)).Some? {
      HitsOfTask(s, catalogue, task, failing);
    }
  }

  /** A list of the visible services with the tag, in any order. */
  predicate IsSnapshot(list: seq<Service>, s: Services, visible: set<ServiceId>, tag: string)
  {
    Keyed(s) && Lists(list, s, TaggedIds(s, visible, tag))
  }

  /** The registry, with the sets of service IDs whose agents refuse to register or
      to deregister. */
  class ServiceRegistry {
    const config: Config
    const dns: map<string, string>
    var services: Services
    var failRegister: set<ServiceId>
    var failDeregister: set<ServiceId>

    constructor (config: Config, dns: map<string, string>)
      ensures services == map[] && Keyed(services) && failRegister == failDeregister == {}
      ensures this.config == config && this.dns == dns
    {
      this.config, this.dns, services, failRegister, failDeregister := config, dns, map[], {}, {};
    }

    /** `Register`. */
    method Register(task: Task, app: App) returns (ok: bool)
      requires NamedInRange(app, task) && Keyed(services)
      modifies this`services
      ensures Keyed(services)
      ensures ok <==> BatchOf(config, dns, task, app).Succeeds(failRegister)
      ensures services == PutAll(old(services), BatchOf(config, dns, task, app).registrations, failRegister)
      ensures ok <==> task.host in dns && forall id :: PlannedId(task, Intents(app, task, config.separator), id) ==>
                                            id !in failRegister
      ensures if task.host in dns then
                PlanEntered(config, dns[task.host], task, Intents(app, task, config.separator), failRegister,
                            old(services), services)
              else services == old(services)
    {
      SuccessIsWrittenOut(config, dns, task, app, failRegister);
      var registrations := MarathonTaskToConsulServices(config, dns, task, app);
      if registrations.None? {
        return false;
      }
      PlanIsEntered(config, dns, task, app, failRegister, services);
      ok := RegisterMultipleServices(registrations.value);
    }

    method RegisterMultipleServices(rs: seq<Registration>) returns (ok: bool)
      requires Keyed(services)
      modifies this`services
      ensures Keyed(services) && services == PutAll(old(services), rs, failRegister)
      ensures ok <==> NoneFails(rs, failRegister)
    {
      var errors := 0;
      for i := 0 to |rs|
        invariant Keyed(services) && errors >= 0
        invariant services == PutAll(old(services), rs[..i], failRegister)
        invariant errors == 0 <==> NoneFails(rs[..i], failRegister)
      {
        assert rs[..i + 1][..i] == rs[..i] && rs[..i + 1] == rs[..i] + [rs[i]];
        if rs[i].id in failRegister {
          errors := errors + 1;
        } else {
          services := services[rs[i].id := rs[i]];
        }
      }
      assert rs[..|rs|] == rs;
      return errors == 0;
    }

    /** `Deregister`. */
    method Deregister(service: Service) returns (ok: bool)
      requires Keyed(services)
      modifies this`services
      ensures Keyed(services)
      ensures ok <==> service.id !in failDeregister
      ensures services == if ok then old(services) - {service.id} else old(services)
    {
      if service.id in failDeregister {
        return false;
      }
      services := services - {service.id};
      return true;
    }

    /** Instances as the catalogue lists them, in any order. */
    method ListServices(ids: set<ServiceId>) returns (list: seq<Service>)
      requires ids <= services.Keys && Keyed(services)
      ensures Lists(list, services, ids)
    {
      list := [];
      var left := ids;
      while left != {}
        invariant left <= ids
        invariant Lists(list, services, ids - left)
      {
        var id :| id in left;
        list, left := list + [ServiceOf(services[id])], left - {id};
      }
    }

    /** The query for the instances of one name. */
    method QueryName(tag: string, dc: Datacenter, name: string) returns (list: Option<seq<Service>>)
      requires Keyed(services)
      ensures list.Some? <==> name !in dc.failing
      ensures list.Some? ==> FoundByName(list.value, services, dc, tag, {name})
    {
      if name in dc.failing {
        return None;
      }
      var instances := ListServices(NamedIds(services, dc, tag, {name}));
      return Some(instances);
    }

    /** One datacenter: the names with the tag, and then the instances name by name. */
    method QueryDatacenter(tag: string, dc: Datacenter) returns (list: Option<seq<Service>>)
      requires Keyed(services)
      ensures list.Some? <==> dc.failing !! TaggedNames(services, dc, tag)
      ensures list.Some? ==> Lists(list.value, services, TaggedIds(services, dc.ids, tag))
    {
      var names := TaggedNames(services, dc, tag);
      list := QueryNames(tag, dc, names);
      if list.Some? {
        AllNames(list.value, services, dc, tag);
      }
    }

    /** The instances, name by name, in any order. */
    method QueryNames(tag: string, dc: Datacenter, names: set<string>) returns (list: Option<seq<Service>>)
      requires Keyed(services)
      ensures list.Some? <==> dc.failing !! names
      ensures list.Some? ==> FoundByName(list.value, services, dc, tag, names)
    {
      var found: seq<Service> := [];
      var left := names;
      while left != {}
        invariant left <= names && FoundByName(found, services, dc, tag, names - left)
        invariant forall n :: n in names - left ==> n !in dc.failing
      {
        var name :| name in left;
        var more := QueryName(tag, dc, name);
        if more.None? {
          return None;
        }
        NextName(found, more.value, services, dc, tag, names - left, name);
        assert names - (left - {name}) == names - left + {name};
        found, left := found + more.value, left - {name};
      }
      assert names - left == names;
      return Some(found);
    }

    /** The search by tag that `getAllServices` and `findServicesByTaskID` both make. */
    method FindByTag(tag: string, catalogue: Catalogue) returns (list: Option<seq<Service>>)
      requires Keyed(services)
      ensures list.Some? <==> Listing(services, catalogue, tag).Some?
      ensures list.Some? ==> IsSnapshot(list.value, services, Listing(services, catalogue, tag).value, tag)
    {
      if catalogue.None? {
        return None;
      }
      var dcs := catalogue.value;
      var found: seq<Service> := [];
      for i := 0 to |dcs|
        invariant Lists(found, services, TaggedIds(services, Visible(dcs[..i]), tag))
        invariant forall j :: 0 <= j < i ==> Served(services, dcs[j], tag)
      {
        OneMoreDatacenter(services, dcs, i, tag);
        if dcs[i].answers {
          var more := QueryDatacenter(tag, dcs[i]);
          if more.None? {
            return None;
          }
          ListsAppend(found, more.value, services, TaggedIds(services, Visible(dcs[..i]), tag),
                      TaggedIds(services, dcs[i].ids, tag));
          found := found + more.value;
        }
      }
      assert dcs[..|dcs|] == dcs;
      return Some(found);
    }

    /** `GetAllServices`. */
    method GetAllServices(catalogue: Catalogue) returns (list: Option<seq<Service>>)
      requires Keyed(services)
      ensures list.Some? <==> Listing(services, catalogue, config.tag).Some?
      ensures list.Some? ==>
                IsSnapshot(list.value, services, Listing(services, catalogue, config.tag).value, config.tag)
      ensures list.Some? <==> Queried(services, catalogue, config.tag)
      ensures list.Some? ==> Found(list.value, services, catalogue.value, config.tag)
    {
      list := FindByTag(config.tag, catalogue);
      ListingIsQueried(services, catalogue, config.tag);
      if list.Some? {
        SnapshotIsFound(list.value, services, catalogue, config.tag);
      }
    }

    /** `DeregisterByTask`: exactly the visible services of the task go, except the
        ones that fail, and there is an error if and only if one failed. */
    method DeregisterByTask(task: TaskId, catalogue: Catalogue) returns (ok: bool)
      requires Keyed(services)
      modifies this`services
      ensures Keyed(services)
      ensures Deregistered(old(services), services, ok, Listing(old(services), catalogue, OwnerTag(task)), task,
                           failDeregister)
      // the same, entry by entry
      ensures TaskIsGone(old(services), services, ok, catalogue, task, failDeregister)
    {
      var list := FindByTag(OwnerTag(task), catalogue);
      if list.None? {
        DeregistrationIsWrittenOut(services, services, false, catalogue, task, failDeregister);
        return false;
      }
      SnapshotIds(list.value, services, Listing(services, catalogue, OwnerTag(task)).value, OwnerTag(task));
      ok := DeregisterMultipleServices(list.value);
      DeregistrationIsWrittenOut(old(services), services, ok, catalogue, task, failDeregister);
    }

    method DeregisterMultipleServices(list: seq<Service>) returns (ok: bool)
      requires Keyed(services)
      modifies this`services
      ensures Keyed(services)
      ensures var ids := set e | e in list :: e.id;
              services == old(services) - (ids - failDeregister) && (ok <==> ids !! failDeregister)
    {
      ghost var gone: set<ServiceId> := {};
      var errors := 0;
      for i := 0 to |list|
        invariant Keyed(services) && errors >= 0
        invariant gone == set e | e in list[..i] :: e.id
        invariant services == old(services) - (gone - failDeregister)
        invariant errors == 0 <==> gone !! failDeregister
      {
        assert list[..i + 1] == list[..i] + [list[i]];
        var done := Deregister(list[i]);
        gone := gone + {list[i].id};
        if !done {
          errors := errors + 1;
        }
      }
      assert list[..|list|] == list;
      return errors == 0;
    }
  }

  lemma SnapshotIds(list: seq<Service>, s: Services, visible: set<ServiceId>, tag: string)
    requires IsSnapshot(list, s, visible, tag)
    ensures TaggedIds(s, visible, tag) == set e | e in list :: e.id
  {
    forall id | id in TaggedIds(s, visible, tag) ensures exists e :: e in list && e.id == id {
      assert ServiceOf(s[id]) in list;
    }
  }

  /** The instances of these names. */
  predicate FoundByName(list: seq<Service>, s: Services, dc: Datacenter, tag: string, names: set<string>)
  {
    Lists(list, s, NamedIds(s, dc, tag, names))
  }

  lemma NextName(found: seq<Service>, more: seq<Service>, s: Services, dc: Datacenter, tag: string,
                 names: set<string>, name: string)
    requires name !in names && FoundByName(found, s, dc, tag, names) && FoundByName(more, s, dc, tag, {name})
    ensures FoundByName(found + more, s, dc, tag, names + {name})
  {
    assert NamedIds(s, dc, tag, names + {name}) == NamedIds(s, dc, tag, names) + NamedIds(s, dc, tag, {name});
    ListsAppend(found, more, s, NamedIds(s, dc, tag, names), NamedIds(s, dc, tag, {name}));
  }

  lemma AllNames(list: seq<Service>, s: Services, dc: Datacenter, tag: string)
    requires FoundByName(list, s, dc, tag, TaggedNames(s, dc, tag))
    ensures Lists(list, s, TaggedIds(s, dc.ids, tag))
  {
    assert NamedIds(s, dc, tag, TaggedNames(s, dc, tag)) == TaggedIds(s, dc.ids, tag);
  }

  lemma OneMoreDatacenter(s: Services, dcs: seq<Datacenter>, i: nat, tag: string)
    requires i < |dcs| && Separate(dcs)
    ensures TaggedIds(s, Visible(dcs[..i]), tag) !! TaggedIds(s, dcs[i].ids, tag)
    ensures TaggedIds(s, Visible(dcs[..i + 1]), tag) ==
            TaggedIds(s, Visible(dcs[..i]), tag) + if dcs[i].answers then TaggedIds(s, dcs[i].ids, tag) else {}
  {
    assert dcs[..i + 1][..i] == dcs[..i];
    VisibleIsBefore(dcs, i, i);
  }

  lemma {:induction false} VisibleIsBefore(dcs: seq<Datacenter>, i: nat, j: nat)
    requires i <= j < |dcs| && Separate(dcs)
    ensures Visible(dcs[..i]) !! dcs[j].ids
  {
    if i > 0 {
      VisibleIsBefore(dcs, i - 1, j);
      assert dcs[..i][..i - 1] == dcs[..i - 1];
    }
  }

  /** In a registry where owner tags agree, `DeregisterByTask` picks by owner. */
  lemma TaskOwnsItsIds(s: Services, visible: set<ServiceId>, task: TaskId)
    requires forall id :: id in s ==> SingleOwner(s[id].tags)
    ensures IdsOfTask(s, visible, task) == set id | id in s && id in visible && Owner(s[id].tags) == Some(task)
  {
    forall id | id in s ensures OwnerTag(task) in s[id].tags <==> Owner(s[id].tags) == Some(task) {
      SingleOwnerIsFound(s[id].tags, task);
    }
  }

  /** Every entry was made for the one task that its tags name, in that task's ID space. */
  predicate Owned(s: Services)
  {
    && Keyed(s)
    && forall id :: id in s ==>
         SingleOwner(s[id].tags) && Owner(s[id].tags).Some? && Begins(id, Owner(s[id].tags).value)
  }

  function OwnersOf(s: Services): set<TaskId>
    requires Owned(s)
  {
    set id | id in s :: Owner(s[id].tags).value
  }
}
