/** Sync passes that nothing disturbs: whatever fails on the way, where such a pass
    leads is settled from the state it is in. */
module Passes {
  import opened Text
  import opened Identity
  import opened Planning
  import opened Registry
  import opened Reconcile
  import opened Interleaving

  /** What fails during the pass: hosts that do not resolve, applications about which
      Marathon is silent, and service IDs whose agents refuse. */
  datatype Faults =
    Faults(dns: map<string, string>, silent: set<AppId>, failRegister: set<ServiceId>, failDeregister: set<ServiceId>)

  /** The task lists that Marathon answers with. */
  function TaskLists(marathon: Applications, silent: set<AppId>): map<AppId, seq<Task>>
  {
    map id | id in marathon && id !in silent :: marathon[id].tasks
  }

  /** The answer to the re-check, if there is one. */
  predicate Answers(e: Service, answered: bool, silent: set<AppId>)
  {
    match Owner(e.tags) case None => true case Some(t) => '.' in t ==> (answered <==> AppIdOf(t) !in silent)
  }

  /** A step of the pass, or none, with exactly these faults. The pass neither begins, nor
      lists more services, nor gives up before it has registered anything. */
  predicate Conforms(s: State, a: Action, f: Faults)
  {
    match a
    case NextOrder(dns) => dns == f.dns
    case SyncPuts(ok) =>
      s.sync.Registering? && s.sync.pending != [] ==> (ok <==> s.sync.pending[0].id !in f.failRegister)
    case Judge(answered) => s.sync.Judging? && s.sync.rest != [] ==> Answers(s.sync.rest[0], answered, f.silent)
    case SyncDeregisters(ok) => s.sync.Condemned? ==> (ok <==> s.sync.service.id !in f.failDeregister)
    case StartRegistering => true
    case StartJudging => true
    case ReadApps(_) => !s.sync.Idle?
    case ListService(_) => !s.sync.Listing?
    case SyncEnds => !s.sync.Listing?
    case _ => false
  }

  /** A pass, or the rest of one, that nothing disturbs. */
  ghost predicate Conforming(setting: Setting, s: State, actions: seq<Action>, f: Faults)
  {
    actions == [] ||
    (&& Conforming(setting, s, actions[..|actions| - 1], f)
     && Conforms(Steps(setting, s, actions[..|actions| - 1]), actions[|actions| - 1], f))
  }

  // ---- steps ----------------------------------------------------------------

  lemma {:induction false} StepsAppend(setting: Setting, s: State, a: seq<Action>, b: seq<Action>)
    ensures Steps(setting, s, a + b) == Steps(setting, Steps(setting, s, a), b)
  {
    if b == [] {
      assert a + b == a;
    } else {
      assert (a + b)[..|a + b| - 1] == a + b[..|b| - 1];
      StepsAppend(setting, s, a, b[..|b| - 1]);
    }
  }

  lemma OneMore(setting: Setting, s: State, run: seq<Action>, a: Action)
    ensures Steps(setting, s, run + [a]) == Next(setting, Steps(setting, s, run), a)
  {
    assert (run + [a])[..|run + [a]| - 1] == run;
  }

  lemma {:induction false} OneBefore(setting: Setting, s: State, a: Action, more: seq<Action>, f: Faults)
    requires Conforms(s, a, f) && Conforming(setting, Next(setting, s, a), more, f)
    ensures Conforming(setting, s, [a] + more, f)
    ensures Steps(setting, s, [a] + more) == Steps(setting, Next(setting, s, a), more)
  {
    OneMore(setting, s, [], a);
    assert [] + [a] == [a];
    StepsAppend(setting, s, [a], more);
    if more == [] {
      assert [a] + more == [a] && [a][..0] == [];
    } else {
      var init := more[..|more| - 1];
      OneBefore(setting, s, a, init, f);
      assert ([a] + more)[..|[a] + more| - 1] == [a] + init;
    }
  }

  // ---- where the pass leads -------------------------------------------------

  /** No order that the pass has or will have makes the program panic. */
  predicate InRangeAhead(sync: SyncState)
  {
    match sync
    case Listing(apps, _) => AllNamedInRange(apps)
    case Registering(_, _, todo, _) => OrdersInRange(todo)
    case _ => true
  }

  function Judged(s: Services, apps: seq<App>, list: seq<Service>, marathon: Applications, f: Faults): Services
  {
    DropAll(s, StaleOnes(list, Running(apps), TaskLists(marathon, f.silent)), f.failDeregister)
  }

  function Ordered(config: Config, s: Services, orders: seq<Order>, f: Faults): Services
    requires OrdersInRange(orders)
  {
    PutAll(s, Planned(Batches(config, f.dns, orders)), f.failRegister)
  }

  /** The registry at the end of the pass, seen from anywhere in it. */
  function Finish(config: Config, s: State, f: Faults): Services
    requires InRangeAhead(s.sync)
  {
    match s.sync
    case Idle => s.services
    case Listing(apps, list) =>
      AfterSync(config, f.dns, f.failRegister, f.failDeregister, s.services, apps, list,
                TaskLists(s.marathon, f.silent))
    case Registering(apps, list, todo, pending) =>
      Judged(Ordered(config, PutAll(s.services, pending, f.failRegister), todo, f), apps, list, s.marathon, f)
    case Judging(apps, rest) => Judged(s.services, apps, rest, s.marathon, f)
    case Condemned(apps, rest, service) =>
      Judged(Drop(s.services, service, service.id !in f.failDeregister), apps, rest, s.marathon, f)
  }

  lemma {:induction false} FirstPut(s: Services, rs: seq<Registration>, failing: set<ServiceId>)
    requires rs != []
    ensures PutAll(s, rs, failing) == PutAll(Put(s, rs[0], rs[0].id !in failing), rs[1..], failing)
  {
    assert rs == [rs[0]] + rs[1..];
    assert [rs[0]][..0] == [];
    PutAllAppends(s, [rs[0]], rs[1..], failing);
  }

  lemma {:induction false} OneBatch(b: Batch, more: seq<Batch>)
    ensures Planned([b] + more) == b.registrations + Planned(more)
  {
    PlannedAppends([b], more, {});
    assert [b][..0] == [] && Planned([]) + b.registrations == b.registrations;
  }

  lemma {:induction false} FirstBatch(config: Config, dns: map<string, string>, orders: seq<Order>)
    requires orders != [] && OrdersInRange(orders)
    ensures orders[0] in orders && OrdersInRange(orders[1..])
    ensures Planned(Batches(config, dns, orders)) ==
            RegistrationsOf(config, dns, orders[0].task, orders[0].app) + Planned(Batches(config, dns, orders[1..]))
  {
    assert orders[0] in orders && forall o :: o in orders[1..] ==> o in orders;
    var all, rest := Batches(config, dns, orders), Batches(config, dns, orders[1..]);
    forall i | 0 <= i < |rest| ensures all[i + 1] == rest[i] {
      assert orders[1..][i] == orders[i + 1];
    }
    assert all == [all[0]] + rest;
    OneBatch(all[0], rest);
  }

  lemma {:induction false} FirstOrder(config: Config, s: Services, orders: seq<Order>, f: Faults)
    requires orders != [] && OrdersInRange(orders)
    ensures orders[0] in orders && OrdersInRange(orders[1..])
    ensures Ordered(config, s, orders, f) ==
            Ordered(config, PutAll(s, RegistrationsOf(config, f.dns, orders[0].task, orders[0].app), f.failRegister),
                    orders[1..], f)
  {
    FirstBatch(config, f.dns, orders);
    PutAllAppends(s, RegistrationsOf(config, f.dns, orders[0].task, orders[0].app),
                  Planned(Batches(config, f.dns, orders[1..])), f.failRegister);
  }

  lemma {:induction false} FirstJudged(s: Services, apps: seq<App>, list: seq<Service>, marathon: Applications,
                                       f: Faults)
    requires list != []
    ensures var e := list[0];
            var gone := Stale(e, Running(apps), TaskLists(marathon, f.silent));
            Judged(s, apps, list, marathon, f) ==
            Judged(if gone then Drop(s, e, e.id !in f.failDeregister) else s, apps, list[1..], marathon, f)
  {
    var running, latest := Running(apps), TaskLists(marathon, f.silent);
    assert forall e :: e in list <==> e == list[0] || e in list[1..];
    var all, rest := IdsOf(StaleOnes(list, running, latest)), IdsOf(StaleOnes(list[1..], running, latest));
    if Stale(list[0], running, latest) {
      assert all == rest + {list[0].id};
    } else {
      assert all == rest;
    }
  }

  lemma NothingJudged(s: Services, apps: seq<App>, marathon: Applications, f: Faults)
    ensures Judged(s, apps, [], marathon, f) == s
  {
  }

  /** Only the registry and the pass itself change. */
  ghost predicate OnlyThePass(s: State, s': State)
  {
    s' == s.(services := s'.services, sync := s'.sync)
  }

  /** From one state to another nothing changes about where the pass leads. */
  ghost predicate SettlesTo(config: Config, s: State, s': State, f: Faults)
    requires InRangeAhead(s.sync)
  {
    OnlyThePass(s, s') && InRangeAhead(s'.sync) && Finish(config, s', f) == Finish(config, s, f)
  }

  ghost predicate Settles(setting: Setting, s: State, a: Action, f: Faults)
    requires InRangeAhead(s.sync)
  {
    SettlesTo(setting.config, s, Next(setting, s, a), f)
  }

  lemma ListingSettles(setting: Setting, s: State, a: Action, f: Faults)
    requires s.sync.Listing? && InRangeAhead(s.sync) && Conforms(s, a, f)
    ensures Settles(setting, s, a, f)
  {
    if a.StartRegistering? {
      TodoInRange(s.sync.apps, s.sync.list);
    }
  }

  /** The pass takes up the next order. */
  function WithOrder(config: Config, s: State, f: Faults): State
    requires s.sync.Registering? && s.sync.todo != [] && InRangeAhead(s.sync)
  {
    var o := s.sync.todo[0];
    assert o in s.sync.todo;
    s.(sync := Registering(s.sync.apps, s.sync.list, s.sync.todo[1..], RegistrationsOf(config, f.dns, o.task, o.app)))
  }

  lemma OrderSettles(config: Config, s: State, f: Faults)
    requires s.sync.Registering? && InRangeAhead(s.sync) && s.sync.pending == [] && s.sync.todo != []
    ensures SettlesTo(config, s, WithOrder(config, s, f), f)
  {
    FirstOrder(config, s.services, s.sync.todo, f);
    assert PutAll(s.services, [], f.failRegister) == s.services;
  }

  lemma NextOrderIs(setting: Setting, s: State, f: Faults)
    requires s.sync.Registering? && InRangeAhead(s.sync)
    ensures Next(setting, s, NextOrder(f.dns)) ==
            if s.sync.pending == [] && s.sync.todo != [] then WithOrder(setting.config, s, f) else s
  {
    assert s.sync.todo != [] ==> s.sync.todo[0] in s.sync.todo;
  }

  lemma NextOrderSettles(setting: Setting, s: State, f: Faults)
    requires s.sync.Registering? && InRangeAhead(s.sync)
    ensures Settles(setting, s, NextOrder(f.dns), f)
  {
    NextOrderIs(setting, s, f);
    if s.sync.pending == [] && s.sync.todo != [] {
      OrderSettles(setting.config, s, f);
    }
  }

  lemma SyncPutsSettles(setting: Setting, s: State, ok: bool, f: Faults)
    requires s.sync.Registering? && InRangeAhead(s.sync) && Conforms(s, SyncPuts(ok), f)
    ensures Settles(setting, s, SyncPuts(ok), f)
  {
    if s.sync.pending != [] {
      FirstPut(s.services, s.sync.pending, f.failRegister);
    }
  }

  lemma RegisteringSettles(setting: Setting, s: State, a: Action, f: Faults)
    requires s.sync.Registering? && InRangeAhead(s.sync) && Conforms(s, a, f)
    ensures Settles(setting, s, a, f)
  {
    match a
    case NextOrder(_) => NextOrderSettles(setting, s, f);
    case SyncPuts(ok) => SyncPutsSettles(setting, s, ok, f);
    case _ =>
  }

  lemma JudgeSettles(setting: Setting, s: State, answered: bool, f: Faults)
    requires s.sync.Judging? && Conforms(s, Judge(answered), f)
    ensures Settles(setting, s, Judge(answered), f)
  {
    if s.sync.rest != [] {
      FirstJudged(s.services, s.sync.apps, s.sync.rest, s.marathon, f);
    }
  }

  lemma JudgingSettles(setting: Setting, s: State, a: Action, f: Faults)
    requires s.sync.Judging? && Conforms(s, a, f)
    ensures Settles(setting, s, a, f)
  {
    if a.Judge? {
      JudgeSettles(setting, s, a.answered, f);
    } else if s.sync.rest == [] {
      NothingJudged(s.services, s.sync.apps, s.marathon, f);
    }
  }

  lemma CondemnedSettles(setting: Setting, s: State, a: Action, f: Faults)
    requires s.sync.Condemned? && Conforms(s, a, f)
    ensures Settles(setting, s, a, f)
  {
    if !a.SyncDeregisters? {
      assert Next(setting, s, a) == s;
    }
  }

  /** No step changes where the pass leads. */
  lemma FinishIsSettled(setting: Setting, s: State, a: Action, f: Faults)
    requires InRangeAhead(s.sync) && Conforms(s, a, f)
    ensures Settles(setting, s, a, f)
  {
    match s.sync
    case Idle =>
    case Listing(_, _) => ListingSettles(setting, s, a, f);
    case Registering(_, _, _, _) => RegisteringSettles(setting, s, a, f);
    case Judging(_, _) => JudgingSettles(setting, s, a, f);
    case Condemned(_, _, _) => CondemnedSettles(setting, s, a, f);
  }

  lemma {:induction false} FinishStaysSettled(setting: Setting, s: State, actions: seq<Action>, f: Faults)
    requires InRangeAhead(s.sync) && Conforming(setting, s, actions, f)
    ensures var s' := Steps(setting, s, actions);
            && OnlyThePass(s, s') && InRangeAhead(s'.sync)
            && Finish(setting.config, s', f) == Finish(setting.config, s, f)
  {
    if actions != [] {
      FinishStaysSettled(setting, s, actions[..|actions| - 1], f);
      FinishIsSettled(setting, Steps(setting, s, actions[..|actions| - 1]), actions[|actions| - 1], f);
    }
  }

  /** Every undisturbed pass, from anywhere in it, ends with the registry that was settled. */
  lemma EveryPassFinishes(setting: Setting, s: State, actions: seq<Action>, f: Faults)
    requires InRangeAhead(s.sync) && Conforming(setting, s, actions, f) && Steps(setting, s, actions).sync.Idle?
    ensures Steps(setting, s, actions) == s.(services := Finish(setting.config, s, f), sync := Idle)
  {
    FinishStaysSettled(setting, s, actions, f);
  }

  /** In particular a pass that has listed its services does what the atomic one does. */
  lemma EveryPassIsTheAtomicOne(setting: Setting, s: State, actions: seq<Action>, f: Faults)
    requires s.sync.Listing? && AllNamedInRange(s.sync.apps)
    requires Conforming(setting, s, actions, f) && Steps(setting, s, actions).sync.Idle?
    ensures Steps(setting, s, actions) ==
            s.(services := AfterSync(setting.config, f.dns, f.failRegister, f.failDeregister, s.services,
                                     s.sync.apps, s.sync.list, TaskLists(s.marathon, f.silent)), sync := Idle)
  {
    EveryPassFinishes(setting, s, actions, f);
  }

  // ---- a pass can end -------------------------------------------------------

  /** The services that the pass still holds. */
  function Held(sync: SyncState): seq<Service>
  {
    match sync
    case Idle => []
    case Listing(_, list) => list
    case Registering(_, list, _, _) => list
    case Judging(_, rest) => rest
    case Condemned(_, rest, service) => [service] + rest
  }

  /** No owner that the pass still has to judge makes the program panic. */
  predicate DottedAhead(sync: SyncState)
  {
    match sync
    case Idle => true
    case Listing(apps, list) => OwnersHaveDots(list, Running(apps))
    case Registering(apps, list, _, _) => OwnersHaveDots(list, Running(apps))
    case Judging(apps, rest) => OwnersHaveDots(rest, Running(apps))
    case Condemned(apps, rest, _) => OwnersHaveDots(rest, Running(apps))
  }

  function Stage(sync: SyncState): nat
  {
    match sync case Idle => 0 case Listing(_, _) => 3 case Registering(_, _, _, _) => 2 case _ => 1
  }

  function OrdersLeft(sync: SyncState): nat { if sync.Registering? then |sync.todo| else 0 }

  function CallsLeft(sync: SyncState): nat
  {
    match sync
    case Registering(_, _, _, pending) => |pending|
    case Judging(_, rest) => 2 * |rest|
    case Condemned(_, rest, _) => 2 * |rest| + 1
    case _ => 0
  }

  predicate Less(sync': SyncState, sync: SyncState)
  {
    || Stage(sync') < Stage(sync)
    || (Stage(sync') == Stage(sync) && OrdersLeft(sync') < OrdersLeft(sync))
    || (Stage(sync') == Stage(sync) && OrdersLeft(sync') == OrdersLeft(sync) && CallsLeft(sync') < CallsLeft(sync))
  }

  /** The step that is due. */
  function Due(s: State, f: Faults): Action
    requires !s.sync.Idle?
  {
    match s.sync
    case Listing(_, _) => StartRegistering
    case Registering(_, _, todo, pending) =>
      if pending != [] then SyncPuts(pending[0].id !in f.failRegister)
      else if todo != [] then NextOrder(f.dns)
      else StartJudging
    case Judging(_, rest) =>
      if rest == [] then SyncEnds
      else
        (match Owner(rest[0].tags)
         case None => Judge(true)
         case Some(t) => Judge('.' in t && AppIdOf(t) !in f.silent))
    case Condemned(_, _, service) => SyncDeregisters(service.id !in f.failDeregister)
  }

  lemma DueRegisters(setting: Setting, s: State, f: Faults)
    requires s.sync.Registering? && InRangeAhead(s.sync) && DottedAhead(s.sync)
    ensures Conforms(s, Due(s, f), f)
    ensures var s' := Next(setting, s, Due(s, f)); DottedAhead(s'.sync) && Less(s'.sync, s.sync)
  {
    assert s.sync.todo != [] ==> s.sync.todo[0] in s.sync.todo;
  }

  lemma DueJudges(setting: Setting, s: State, f: Faults)
    requires s.sync.Judging? && DottedAhead(s.sync)
    ensures Conforms(s, Due(s, f), f)
    ensures var s' := Next(setting, s, Due(s, f)); DottedAhead(s'.sync) && Less(s'.sync, s.sync)
  {
    var rest := s.sync.rest;
    if rest != [] {
      assert rest[0] in rest && forall e :: e in rest[1..] ==> e in rest;
    }
  }

  lemma DueGoesOn(setting: Setting, s: State, f: Faults)
    requires !s.sync.Idle? && InRangeAhead(s.sync) && DottedAhead(s.sync)
    ensures Conforms(s, Due(s, f), f)
    ensures var s' := Next(setting, s, Due(s, f)); DottedAhead(s'.sync) && Less(s'.sync, s.sync)
  {
    match s.sync
    case Registering(_, _, _, _) => DueRegisters(setting, s, f);
    case Judging(_, _) => DueJudges(setting, s, f);
    case _ =>
  }

  /** However far a pass has come, and whatever fails from there, it can end. */
  lemma {:induction false} PassCanEnd(setting: Setting, s: State, f: Faults) returns (actions: seq<Action>)
    requires InRangeAhead(s.sync) && DottedAhead(s.sync)
    ensures Conforming(setting, s, actions, f) && Steps(setting, s, actions).sync.Idle?
    decreases Stage(s.sync), OrdersLeft(s.sync), CallsLeft(s.sync)
  {
    actions := [];
    if !s.sync.Idle? {
      DueGoesOn(setting, s, f);
      FinishIsSettled(setting, s, Due(s, f), f);
      var more := PassCanEnd(setting, Next(setting, s, Due(s, f)), f);
      OneBefore(setting, s, Due(s, f), more, f);
      actions := [Due(s, f)] + more;
    }
  }
}
