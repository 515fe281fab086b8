/** Applications, tasks, and the plan of registrations that an application makes
    for each of its tasks. */
module Planning {
  import opened Text
  import opened Identity
  import opened Placeholders
  import opened PlaceholderOrder

  const CONSUL: string := "consul"
  const TAG: string := "tag"

  datatype Label = Label(key: string, value: string)

  /** A Go map of labels; the list order stands for the order of iteration. */
  type Labels = seq<Label>

  function Lookup(labels: Labels, key: string): (v: Option<string>)
    ensures v.Some? <==> exists l :: l in labels && l.key == key
    ensures v.Some? ==> Label(key, v.value) in labels
  {
    if labels == [] then None
    else if labels[0].key == key then
      assert labels[0] in labels;
      Some(labels[0].value)
    else
      assert forall l :: l in labels <==> l == labels[0] || l in labels[1..];
      Lookup(labels[1..], key)
  }

  datatype PortDefinition = PortDefinition(labels: Labels, name: string)

  datatype Task = Task(id: TaskId, state: string, host: string, ports: seq<int>, healthChecks: seq<bool>)

  datatype App = App(id: AppId, labels: Labels, portMappings: seq<PortDefinition>,
                     portDefinitions: seq<PortDefinition>, tasks: seq<Task>)

  datatype IndexedDefinition = IndexedDefinition(index: nat, labels: Labels, name: string)

  datatype Intent = Intent(name: string, port: int, tags: seq<string>)

  // ---- tasks ----------------------------------------------------------------

  predicate Healthy(task: Task)
  {
    && task.healthChecks != [] && task.state != "TASK_KILLING"
    && forall i :: 0 <= i < |task.healthChecks| ==> task.healthChecks[i]
  }

  method IsHealthy(task: Task) returns (register: bool)
    ensures register <==> Healthy(task)
    ensures register <==> task.healthChecks != [] && false !in task.healthChecks && task.state != "TASK_KILLING"
  {
    if |task.healthChecks| < 1 {
      return false;
    }
    register := true;
    for i := 0 to |task.healthChecks|
      invariant register <==>
                (i == 0 || task.state != "TASK_KILLING") && forall j :: 0 <= j < i ==> task.healthChecks[j]
    {
      register := register && task.healthChecks[i] && task.state != "TASK_KILLING";
    }
  }

  function FindTask(id: TaskId, tasks: seq<Task>): (t: Option<Task>)
    ensures t.Some? <==> exists u :: u in tasks && u.id == id
    ensures t.Some? ==> t.value in tasks && t.value.id == id
  {
    if tasks == [] then None
    else if tasks[0].id == id then
      assert tasks[0] in tasks;
      Some(tasks[0])
    else
      assert forall u :: u in tasks <==> u == tasks[0] || u in tasks[1..];
      FindTask(id, tasks[1..])
  }

  // ---- label selection ------------------------------------------------------

  predicate IsConsulApp(app: App): (r: bool)
    ensures r <==> exists l :: l in app.labels && l.key == "consul"
  {
    Lookup(app.labels, CONSUL).Some?
  }

  /** What one label of a port definition becomes for the service `name`. */
  function Select(name: string, l: Label): Option<Label>
  {
    var parts := Split(l.value, ':');
    if |parts| > 1 then
      if parts[0] == TAG && parts[1] == name then Some(Label(l.key, TAG)) else None
    else if l.key == CONSUL then Some(Label(l.key, name))
    else Some(l)
  }

  function Extract(name: string, labels: Labels): Labels
  {
    if labels == [] then []
    else
      match Select(name, labels[|labels| - 1])
      case Some(l) => Extract(name, labels[..|labels| - 1]) + [l]
      case None => Extract(name, labels[..|labels| - 1])
  }

  method ExtractLabelsForService(name: string, labels: Labels) returns (selected: Labels)
    ensures selected == Extract(name, labels)
  {
    selected := [];
    for i := 0 to |labels|
      invariant selected == Extract(name, labels[..i])
    {
      var parts := Split(labels[i].value, ':');
      if |parts| > 1 {
        if parts[0] == TAG && parts[1] == name {
          selected := selected + [Label(labels[i].key, parts[0])];
        }
      } else if labels[i].key == CONSUL {
        selected := selected + [Label(labels[i].key, name)];
      } else {
        selected := selected + [labels[i]];
      }
      assert labels[..i + 1][..i] == labels[..i];
    }
    assert labels[..|labels|] == labels;
  }

  /** "tag" scoped to the service `name`: the selector is all text up to the next colon. */
  predicate ScopedTo(value: string, name: string)
  {
    ':' !in name && (value == TAG + ":" + name || TAG + ":" + name + ":" <= value)
  }

  predicate TagFor(l: Label, name: string)
  {
    || (l.value == TAG && l.key != CONSUL)
    || ScopedTo(l.value, name)
    || (l.key == CONSUL && ':' !in l.value && name == TAG)
  }

  lemma SplitHead(a: string, rest: string, sep: char)
    requires sep !in a
    ensures Split(a + [sep] + rest, sep) == [a] + Split(rest, sep)
    ensures Split(a, sep) == [a]
  {
    if a != [] {
      assert a == [a[0]] + a[1..];
      SplitHead(a[1..], rest, sep);
      assert (a + [sep] + rest)[1..] == a[1..] + [sep] + rest;
    } else {
      assert (a + [sep] + rest)[1..] == rest;
    }
  }

  lemma SplitIsScoped(value: string, name: string)
    ensures ScopedTo(value, name) <==>
            var parts := Split(value, ':'); |parts| > 1 && parts[0] == TAG && parts[1] == name
  {
    var parts := Split(value, ':');
    if |parts| > 1 && parts[0] == TAG && parts[1] == name {
      PartsMakeScope(value, name);
    }
    if ScopedTo(value, name) {
      ScopeMakesParts(value, name);
    }
  }

  lemma PartsMakeScope(value: string, name: string)
    requires var parts := Split(value, ':'); |parts| > 1 && parts[0] == TAG && parts[1] == name
    ensures ScopedTo(value, name)
  {
    var parts := Split(value, ':');
    SplitJoins(value, ':');
    SplitPartsAreClean(value, ':');
    var tail := parts[1..];
    assert value == TAG + ":" + Join(tail, ':');
    if |tail| > 1 {
      assert value == TAG + ":" + name + ":" + Join(tail[1..], ':');
    }
  }

  lemma ScopeMakesParts(value: string, name: string)
    requires ScopedTo(value, name)
    ensures var parts := Split(value, ':'); |parts| > 1 && parts[0] == TAG && parts[1] == name
  {
    var prefix := TAG + ":" + name;
    assert prefix <= value by {
      if value != prefix {
        assert prefix == (prefix + ":")[..|prefix|];
      }
    }
    var rest := value[|TAG| + 1..];
    assert value == TAG + [':'] + rest;
    SplitHead(TAG, rest, ':');
    if value == prefix {
      assert rest == name;
      SplitHead(name, "", ':');
    } else {
      var more := value[|prefix| + 1..];
      assert value == prefix + ":" + more;
      assert rest == name + [':'] + more;
      SplitHead(name, more, ':');
    }
  }

  /** Keys of the labels that become tags. */
  function TagKeys(labels: Labels): (keys: seq<string>)
    ensures forall k :: k in keys <==> Label(k, TAG) in labels
  {
    if labels == [] then []
    else
      assert forall l :: l in labels <==> l == labels[0] || l in labels[1..];
      (if labels[0].value == TAG then [labels[0].key] else []) + TagKeys(labels[1..])
  }

  lemma {:induction false} ExtractedLabels(name: string, labels: Labels, l: Label)
    ensures l in Extract(name, labels) <==> exists o :: o in labels && Select(name, o) == Some(l)
  {
    if labels != [] {
      var last := labels[|labels| - 1];
      ExtractedLabels(name, labels[..|labels| - 1], l);
      assert forall o :: o in labels <==> o == last || o in labels[..|labels| - 1];
    }
  }

  /** Scoped tags do not leak: a label contributes its key to the service `name`
      exactly when it is a plain tag, a tag scoped to that name, or the naming
      label of a service that is itself called "tag". */
  lemma ScopedTagsDoNotLeak(name: string, labels: Labels, key: string)
    ensures key in TagKeys(Extract(name, labels)) <==>
            exists l :: l in labels && l.key == key && TagFor(l, name)
  {
    ExtractedLabels(name, labels, Label(key, TAG));
    forall l | l in labels && l.key == key
      ensures Select(name, l) == Some(Label(key, TAG)) <==> TagFor(l, name)
    {
      SplitIsScoped(l.value, name);
      SplitJoins(l.value, ':');
    }
  }

  // ---- port definitions -----------------------------------------------------

  function Definitions(app: App): seq<IndexedDefinition>
  {
    var ds := if |app.portMappings| > 0 then app.portMappings else app.portDefinitions;
    seq(|ds|, i requires 0 <= i < |ds| => IndexedDefinition(i, ds[i].labels, ds[i].name))
  }

  /** The services that a definition names. */
  function NamesOf(d: IndexedDefinition): seq<string>
  {
    match Lookup(d.labels, CONSUL)
    case None => []
    case Some(value) => Split(value, ',')
  }

  function Named(d: IndexedDefinition, name: string): IndexedDefinition
  {
    IndexedDefinition(d.index, Extract(name, d.labels), name)
  }

  /** One definition, expanded by its names. */
  function Expand(d: IndexedDefinition): seq<IndexedDefinition>
  {
    var names := NamesOf(d);
    seq(|names|, i requires 0 <= i < |names| => Named(d, names[i]))
  }

  function ConsulDefinitions(all: seq<IndexedDefinition>): seq<IndexedDefinition>
  {
    if all == [] then [] else ConsulDefinitions(all[..|all| - 1]) + Expand(all[|all| - 1])
  }

  /** How many services the first `k` definitions name. */
  function NamesBefore(all: seq<IndexedDefinition>, k: nat): nat
    requires k <= |all|
  {
    if k == 0 then 0 else NamesBefore(all, k - 1) + |NamesOf(all[k - 1])|
  }

  /** The `j`-th name of the `k`-th definition has its place. */
  predicate Placed(ds: seq<IndexedDefinition>, all: seq<IndexedDefinition>, k: nat, j: nat)
    requires k < |all| && j < |NamesOf(all[k])|
  {
    var i := NamesBefore(all, k) + j;
    i < |ds| && ds[i] == Named(all[k], NamesOf(all[k])[j])
  }

  /** Every name of the first `n` definitions has its place, in order, and there is nothing else. */
  predicate IsExpansion(ds: seq<IndexedDefinition>, all: seq<IndexedDefinition>, n: nat)
    requires n <= |all|
  {
    && |ds| == NamesBefore(all, n)
    && forall k, j :: 0 <= k < n && 0 <= j < |NamesOf(all[k])| ==> Placed(ds, all, k, j)
  }

  lemma PlacedBefore(ds: seq<IndexedDefinition>, more: seq<IndexedDefinition>, all: seq<IndexedDefinition>, k: nat,
                     j: nat)
    requires k < |all| && j < |NamesOf(all[k])| && Placed(ds, all, k, j)
    ensures Placed(ds + more, all, k, j)
  {
    var i := NamesBefore(all, k) + j;
    assert (ds + more)[i] == ds[i];
  }

  lemma PlacedLast(ds: seq<IndexedDefinition>, all: seq<IndexedDefinition>, n: nat, j: nat)
    requires n < |all| && j < |NamesOf(all[n])| && |ds| == NamesBefore(all, n)
    ensures Placed(ds + Expand(all[n]), all, n, j)
  {
    assert (ds + Expand(all[n]))[|ds| + j] == Expand(all[n])[j];
  }

  lemma ExpandOneMore(ds: seq<IndexedDefinition>, all: seq<IndexedDefinition>, n: nat)
    requires n < |all| && IsExpansion(ds, all, n)
    ensures IsExpansion(ds + Expand(all[n]), all, n + 1)
  {
    forall k, j | 0 <= k < n + 1 && 0 <= j < |NamesOf(all[k])| ensures Placed(ds + Expand(all[n]), all, k, j) {
      if k < n {
        PlacedBefore(ds, Expand(all[n]), all, k, j);
      } else {
        PlacedLast(ds, all, n, j);
      }
    }
  }

  lemma {:induction false} ConsulDefinitionsExpand(all: seq<IndexedDefinition>, n: nat)
    requires n <= |all|
    ensures IsExpansion(ConsulDefinitions(all[..n]), all, n)
  {
    if n > 0 {
      ConsulDefinitionsExpand(all, n - 1);
      ExpandOneMore(ConsulDefinitions(all[..n - 1]), all, n - 1);
      assert all[..n][..n - 1] == all[..n - 1];
    }
  }

  method FilterConsulDefinitions(all: seq<IndexedDefinition>) returns (ds: seq<IndexedDefinition>)
    ensures IsExpansion(ds, all, |all|) && ds == ConsulDefinitions(all)
  {
    ds := [];
    for i := 0 to |all|
      invariant ds == ConsulDefinitions(all[..i])
    {
      var l := Lookup(all[i].labels, CONSUL);
      if l.Some? {
        var expanded := ExpandNames(all[i], Split(l.value, ','));
        assert expanded == Expand(all[i]);
        ds := ds + expanded;
      }
      assert all[..i + 1][..i] == all[..i];
    }
    assert all[..|all|] == all;
    ConsulDefinitionsExpand(all, |all|);
  }

  /** The inner loop of `filterConsulDefinitions`. */
  method ExpandNames(d: IndexedDefinition, names: seq<string>) returns (ds: seq<IndexedDefinition>)
    ensures |ds| == |names|
    ensures forall i :: 0 <= i < |ds| ==> ds[i] == Named(d, names[i])
  {
    ds := [];
    for j := 0 to |names|
      invariant |ds| == j
      invariant forall i :: 0 <= i < j ==> ds[i] == Named(d, names[i])
    {
      var labels := ExtractLabelsForService(names[j], d.labels);
      ds := ds + [IndexedDefinition(d.index, labels, names[j])];
    }
  }

  lemma {:induction false} ExpandedFrom(all: seq<IndexedDefinition>, d: IndexedDefinition)
    requires d in ConsulDefinitions(all)
    ensures exists o :: o in all && d in Expand(o)
  {
    var last := all[|all| - 1];
    if d in Expand(last) {
      assert last in all;
    } else {
      ExpandedFrom(all[..|all| - 1], d);
      var o :| o in all[..|all| - 1] && d in Expand(o);
      assert o in all;
    }
  }

  // ---- names ----------------------------------------------------------------

  function ServiceName(name: string, separator: string): string
  {
    ReplaceAll(TrimChar(TrimSpace(name), '/'), "/", separator)
  }

  function LabelsToName(app: App, labels: Labels, separator: string): string
  {
    var raw :=
      match Lookup(labels, CONSUL)
      case Some(value) => if value != "true" && value != "" then value else app.id
      case None => app.id;
    var name := ServiceName(raw, separator);
    if name == "" then ServiceName(app.id, separator) else name
  }

  // ---- tags -----------------------------------------------------------------

  /** Go panics on a named definition beyond the task's ports. */
  predicate NamedInRange(app: App, task: Task)
  {
    forall d :: d in Definitions(app) && d.name != "" ==> d.index < |task.ports|
  }

  /** `mapping[placeholder] = port`. */
  function PutRef(refs: seq<PortRef>, r: PortRef): seq<PortRef>
  {
    if refs == [] then [r]
    else if refs[0].name == r.name then [r] + refs[1..]
    else [refs[0]] + PutRef(refs[1..], r)
  }

  lemma {:induction false} PutRefEntries(refs: seq<PortRef>, r: PortRef)
    requires DistinctNames(refs)
    ensures DistinctNames(PutRef(refs, r))
    ensures forall q :: q in PutRef(refs, r) <==> q == r || (q in refs && q.name != r.name)
  {
    if refs != [] {
      TailIsDistinct(refs);
      assert refs == [refs[0]] + refs[1..];
      if refs[0].name != r.name {
        PutRefEntries(refs[1..], r);
      }
    }
  }

  function PlaceholderRefs(ds: seq<IndexedDefinition>, ports: seq<int>): (refs: seq<PortRef>)
    requires forall d :: d in ds && d.name != "" ==> d.index < |ports|
  {
    if ds == [] then []
    else
      var d := ds[|ds| - 1];
      var refs := PlaceholderRefs(ds[..|ds| - 1], ports);
      if d.name == "" then refs else PutRef(refs, PortRef(d.name, ports[d.index]))
  }

  /** The last definition of that name has that port. */
  predicate LastNamed(ds: seq<IndexedDefinition>, ports: seq<int>, name: string, port: int)
  {
    exists i :: 0 <= i < |ds| && ds[i].name == name && ds[i].index < |ports| && ports[ds[i].index] == port &&
                forall j :: i < j < |ds| ==> ds[j].name != name
  }

  /** One entry for each port name, with the port of the last definition of that name. */
  ghost predicate IsMapping(refs: seq<PortRef>, ds: seq<IndexedDefinition>, ports: seq<int>)
  {
    DistinctNames(refs) && forall r: PortRef :: r in refs <==> r.name != "" && LastNamed(ds, ports, r.name, r.port)
  }

  lemma OneMoreNamed(ds: seq<IndexedDefinition>, d: IndexedDefinition, ports: seq<int>, name: string, port: int)
    ensures LastNamed(ds + [d], ports, name, port) <==>
            if d.name == name then d.index < |ports| && ports[d.index] == port else LastNamed(ds, ports, name, port)
  {
    var all := ds + [d];
    assert all[|ds|] == d && forall i :: 0 <= i < |ds| ==> all[i] == ds[i];
    if d.name != name && LastNamed(ds, ports, name, port) {
      var i :| 0 <= i < |ds| && ds[i].name == name && ds[i].index < |ports| && ports[ds[i].index] == port &&
               forall j :: i < j < |ds| ==> ds[j].name != name;
      assert all[i].name == name;
    }
  }

  lemma {:induction false} PlaceholderRefsMap(ds: seq<IndexedDefinition>, ports: seq<int>)
    requires forall d :: d in ds && d.name != "" ==> d.index < |ports|
    ensures IsMapping(PlaceholderRefs(ds, ports), ds, ports)
  {
    if ds != [] {
      var init, d := ds[..|ds| - 1], ds[|ds| - 1];
      assert ds == init + [d] && d in ds;
      PlaceholderRefsMap(init, ports);
      if d.name != "" {
        PutRefEntries(PlaceholderRefs(init, ports), PortRef(d.name, ports[d.index]));
      }
      forall r: PortRef
        ensures r in PlaceholderRefs(ds, ports) <==> r.name != "" && LastNamed(ds, ports, r.name, r.port)
      {
        OneMoreNamed(init, d, ports, r.name, r.port);
      }
    }
  }

  method CreateTagPlaceholderMapping(ds: seq<IndexedDefinition>, ports: seq<int>) returns (refs: seq<PortRef>)
    requires forall d :: d in ds && d.name != "" ==> d.index < |ports|
    ensures IsMapping(refs, ds, ports) && refs == PlaceholderRefs(ds, ports)
  {
    refs := [];
    for i := 0 to |ds|
      invariant refs == PlaceholderRefs(ds[..i], ports)
    {
      assert ds[i] in ds && ds[..i + 1][..i] == ds[..i];
      if ds[i].name != "" {
        refs := PutRef(refs, PortRef(ds[i].name, ports[ds[i].index]));
      }
    }
    assert ds[..|ds|] == ds;
    PlaceholderRefsMap(ds, ports);
  }

  predicate BraceFreeNames(ds: seq<IndexedDefinition>) { forall d :: d in ds ==> BraceFree(d.name) }

  /** The placeholder map of a task: valid for names without braces, and with the port
      of the last definition at every name. */
  lemma PlanRefs(ds: seq<IndexedDefinition>, ports: seq<int>)
    requires forall d :: d in ds && d.name != "" ==> d.index < |ports|
    ensures var refs := PlaceholderRefs(ds, ports);
            && (BraceFreeNames(ds) ==> ValidRefs(refs))
            && forall n, p :: n in PortsOf(refs) && PortsOf(refs)[n] == p <==> n != "" && LastNamed(ds, ports, n, p)
  {
    var refs := PlaceholderRefs(ds, ports);
    PlaceholderRefsMap(ds, ports);
    forall n, p ensures n in PortsOf(refs) && PortsOf(refs)[n] == p <==> n != "" && LastNamed(ds, ports, n, p) {
      PortOfName(refs, PortRef(n, p));
    }
    if BraceFreeNames(ds) {
      forall r | r in refs ensures BraceFree(r.name) {
        var i :| 0 <= i < |ds| && ds[i].name == r.name;
        assert ds[i] in ds;
      }
    }
  }

  function ResolveAll(keys: seq<string>, refs: seq<PortRef>): (tags: seq<string>)
    ensures |tags| == |keys| && forall i :: 0 <= i < |keys| ==> tags[i] == Resolve(keys[i], refs)
  {
    seq(|keys|, i requires 0 <= i < |keys| => Resolve(keys[i], refs))
  }

  function TagsOf(labels: Labels, refs: seq<PortRef>): seq<string>
  {
    ResolveAll(TagKeys(labels), refs)
  }

  /** In the plan every tag is its key with all placeholders substituted at once. */
  lemma PlanSubstitutes(labels: Labels, ds: seq<IndexedDefinition>, ports: seq<int>)
    requires BraceFreeNames(ds) && forall d :: d in ds && d.name != "" ==> d.index < |ports|
    requires forall k :: k in TagKeys(labels) ==> NotNested(k)
    ensures var refs := PlaceholderRefs(ds, ports);
            forall i :: 0 <= i < |TagKeys(labels)| ==>
              TagsOf(labels, refs)[i] == OnePass(TagKeys(labels)[i], PortsOf(refs))
  {
    var refs := PlaceholderRefs(ds, ports);
    PlanRefs(ds, ports);
    forall i | 0 <= i < |TagKeys(labels)|
      ensures TagsOf(labels, refs)[i] == OnePass(TagKeys(labels)[i], PortsOf(refs))
    {
      assert TagKeys(labels)[i] in TagKeys(labels);
      ResolveIsOnePass(TagKeys(labels)[i], refs);
    }
  }

  /** Every order of the task's placeholder map gives every label list the same tags. */
  ghost predicate PlanOrderFree(refs: seq<PortRef>)
  {
    forall labels: Labels, refs' :: ValidRefs(refs') && PortsOf(refs') == PortsOf(refs) ==>
      TagsOf(labels, refs') == TagsOf(labels, refs)
  }

  /** The plan does not depend on Go's map order exactly when no port number of the task
      occurs in the name of another port. */
  lemma PlanOrderFreeIff(ds: seq<IndexedDefinition>, ports: seq<int>)
    requires BraceFreeNames(ds) && forall d :: d in ds && d.name != "" ==> d.index < |ports|
    ensures PlanOrderFree(PlaceholderRefs(ds, ports)) <==> Independent(PlaceholderRefs(ds, ports))
  {
    var refs := PlaceholderRefs(ds, ports);
    PlanRefs(ds, ports);
    OrderFreeIff(refs);
    if OrderFree(refs) {
      forall labels: Labels, refs' | ValidRefs(refs') && PortsOf(refs') == PortsOf(refs)
        ensures TagsOf(labels, refs') == TagsOf(labels, refs)
      {
        assert forall k :: Resolve(k, refs') == Resolve(k, refs);
      }
    }
    if PlanOrderFree(refs) {
      forall value, refs' | ValidRefs(refs') && PortsOf(refs') == PortsOf(refs)
        ensures Resolve(value, refs') == Resolve(value, refs)
      {
        OneLabel(value, refs);
        OneLabel(value, refs');
      }
    }
  }

  lemma OneLabel(key: string, refs: seq<PortRef>)
    ensures TagsOf([Label(key, TAG)], refs) == [Resolve(key, refs)]
  {
    assert [Label(key, TAG)][1..] == [];
    assert TagKeys([Label(key, TAG)]) == [key];
  }

  method LabelsToTags(labels: Labels, refs: seq<PortRef>) returns (tags: seq<string>)
    ensures tags == TagsOf(labels, refs)
  {
    tags := [];
    for i := 0 to |labels|
      invariant tags + TagsOf(labels[i..], refs) == TagsOf(labels, refs)
    {
      NextTag(labels, i, refs);
      if labels[i].value == TAG {
        var tag := ResolvePlaceholders(labels[i].key, refs);
        tags := tags + [tag];
      }
    }
  }

  lemma NextTag(labels: Labels, i: nat, refs: seq<PortRef>)
    requires i < |labels|
    ensures TagsOf(labels[i..], refs) ==
            (if labels[i].value == TAG then [Resolve(labels[i].key, refs)] else []) + TagsOf(labels[i + 1..], refs)
  {
    assert labels[i..][1..] == labels[i + 1..];
  }

  // ---- the plan -------------------------------------------------------------

  /** The consul definitions whose port the task has. */
  function InRange(ds: seq<IndexedDefinition>, count: nat): seq<IndexedDefinition>
  {
    if ds == [] then []
    else
      var last := ds[|ds| - 1];
      InRange(ds[..|ds| - 1], count) + (if last.index < count then [last] else [])
  }

  lemma {:induction false} InRangeSome(ds: seq<IndexedDefinition>, count: nat)
    ensures var some := InRange(ds, count);
            && (forall d :: d in some <==> d in ds && d.index < count)
            && |some| <= |ds|
            && (|some| == |ds| <==> forall d :: d in ds ==> d.index < count)
  {
    if ds != [] {
      var last := ds[|ds| - 1];
      InRangeSome(ds[..|ds| - 1], count);
      assert forall d :: d in ds <==> d == last || d in ds[..|ds| - 1];
    }
  }

  function IntentFor(app: App, d: IndexedDefinition, task: Task, separator: string,
                     refs: seq<PortRef>, common: seq<string>): Intent
    requires d.index < |task.ports|
  {
    Intent(LabelsToName(app, d.labels, separator), task.ports[d.index], TagsOf(d.labels, refs) + common)
  }

  function IntentsFor(app: App, ds: seq<IndexedDefinition>, task: Task, separator: string,
                      refs: seq<PortRef>, common: seq<string>): seq<Intent>
  {
    if ds == [] then []
    else
      var last := ds[|ds| - 1];
      IntentsFor(app, ds[..|ds| - 1], task, separator, refs, common) +
      if last.index < |task.ports| then [IntentFor(app, last, task, separator, refs, common)] else []
  }

  lemma NextIntent(app: App, ds: seq<IndexedDefinition>, i: nat, task: Task, separator: string,
                   refs: seq<PortRef>, common: seq<string>)
    requires i < |ds|
    ensures IntentsFor(app, ds[..i + 1], task, separator, refs, common) ==
            IntentsFor(app, ds[..i], task, separator, refs, common) +
            if ds[i].index < |task.ports| then [IntentFor(app, ds[i], task, separator, refs, common)] else []
  {
    assert ds[..i + 1][..i] == ds[..i];
  }

  function Intents(app: App, task: Task, separator: string): seq<Intent>
    requires NamedInRange(app, task)
  {
    var consulDefinitions := ConsulDefinitions(Definitions(app));
    var refs := PlaceholderRefs(Definitions(app), task.ports);
    var common := TagsOf(app.labels, refs);
    if consulDefinitions == [] && task.ports != [] then
      [Intent(LabelsToName(app, app.labels, separator), task.ports[0], common)]
    else
      IntentsFor(app, consulDefinitions, task, separator, refs, common)
  }

  method RegistrationIntents(app: App, task: Task, separator: string) returns (intents: seq<Intent>)
    requires NamedInRange(app, task)
    ensures intents == Intents(app, task, separator)
  {
    var definitions := Definitions(app);
    var ds := FilterConsulDefinitions(definitions);
    var refs := CreateTagPlaceholderMapping(definitions, task.ports);
    var common := LabelsToTags(app.labels, refs);
    if |ds| == 0 && |task.ports| != 0 {
      return [Intent(LabelsToName(app, app.labels, separator), task.ports[0], common)];
    }
    intents := [];
    for i := 0 to |ds|
      invariant intents == IntentsFor(app, ds[..i], task, separator, refs, common)
    {
      if ds[i].index < |task.ports| {
        var own := LabelsToTags(ds[i].labels, refs);
        var intent := Intent(LabelsToName(app, ds[i].labels, separator), task.ports[ds[i].index], own + common);
        assert intent == IntentFor(app, ds[i], task, separator, refs, common);
        intents := intents + [intent];
      }
      NextIntent(app, ds, i, task, separator, refs, common);
    }
    assert ds[..|ds|] == ds;
  }

  lemma {:induction false} IntentsAreInRange(app: App, ds: seq<IndexedDefinition>, task: Task, separator: string,
                                             refs: seq<PortRef>, common: seq<string>)
    ensures var some := InRange(ds, |task.ports|);
            var intents := IntentsFor(app, ds, task, separator, refs, common);
            && |intents| == |some|
            && forall i :: 0 <= i < |some| ==>
                 some[i].index < |task.ports| && intents[i] == IntentFor(app, some[i], task, separator, refs, common)
  {
    if ds != [] {
      IntentsAreInRange(app, ds[..|ds| - 1], task, separator, refs, common);
    }
  }

  /** `RegistrationIntentsNumber`, the count that a sync pass compares with. */
  function IntentsNumber(app: App): nat
  {
    if !IsConsulApp(app) then 0
    else
      var ds := ConsulDefinitions(Definitions(app));
      if |ds| == 0 then 1 else |ds|
  }

  /** The plan never exceeds the count, and meets it exactly when the task has
      every port that the plan asks for. */
  lemma PlanAgreesWithCount(app: App, task: Task, separator: string)
    requires IsConsulApp(app) && NamedInRange(app, task)
    ensures |Intents(app, task, separator)| <= IntentsNumber(app)
    ensures |Intents(app, task, separator)| == IntentsNumber(app) <==>
            var ds := ConsulDefinitions(Definitions(app));
            if ds == [] then task.ports != [] else forall d :: d in ds ==> d.index < |task.ports|
  {
    var ds := ConsulDefinitions(Definitions(app));
    var refs := PlaceholderRefs(Definitions(app), task.ports);
    IntentsAreInRange(app, ds, task, separator, refs, TagsOf(app.labels, refs));
    InRangeSome(ds, |task.ports|);
  }

  /** The definitions are numbered in order, so the ones within the task's ports come first. */
  predicate Numbered(all: seq<IndexedDefinition>) { forall i :: 0 <= i < |all| ==> all[i].index == i }

  function Reach(all: seq<IndexedDefinition>, count: nat): nat { if count < |all| then count else |all| }

  lemma InRangeOneMore(ds: seq<IndexedDefinition>, d: IndexedDefinition, count: nat)
    ensures InRange(ds + [d], count) == InRange(ds, count) + if d.index < count then [d] else []
  {
    assert (ds + [d])[..|ds + [d]| - 1] == ds;
  }

  lemma {:induction false} SameIndexInRange(ds: seq<IndexedDefinition>, more: seq<IndexedDefinition>, index: nat,
                                            count: nat)
    requires forall i :: 0 <= i < |more| ==> more[i].index == index
    ensures InRange(ds + more, count) == if index < count then InRange(ds, count) + more else InRange(ds, count)
  {
    if more == [] {
      assert ds + more == ds && InRange(ds, count) + more == InRange(ds, count);
    } else {
      var init, last := more[..|more| - 1], more[|more| - 1];
      SameIndexInRange(ds, init, index, count);
      InRangeOneMore(ds + init, last, count);
      LastOfSum(ds, more);
      LastOfSum(InRange(ds, count), more);
    }
  }

  lemma LastOfSum<T>(a: seq<T>, b: seq<T>)
    requires b != []
    ensures a + b == (a + b[..|b| - 1]) + [b[|b| - 1]]
  {
  }

  lemma {:induction false} InRangeIsFirst(all: seq<IndexedDefinition>, count: nat)
    requires Numbered(all)
    ensures InRange(ConsulDefinitions(all), count) == ConsulDefinitions(all[..Reach(all, count)])
  {
    if all == [] {
      assert all[..Reach(all, count)] == all;
    } else {
      var init, last := all[..|all| - 1], all[|all| - 1];
      InRangeIsFirst(init, count);
      if last.index < count {
        assert all[..Reach(all, count)] == all && init[..Reach(init, count)] == init;
      } else {
        assert all[..Reach(all, count)] == init[..Reach(init, count)];
      }
      SameIndexInRange(ConsulDefinitions(init), Expand(last), last.index, count);
    }
  }

  predicate Realizes(app: App, task: Task, separator: string, d: IndexedDefinition, intent: Intent)
    requires NamedInRange(app, task)
  {
    var refs := PlaceholderRefs(Definitions(app), task.ports);
    && d.index < |task.ports| && intent.port == task.ports[d.index]
    && intent.name == LabelsToName(app, d.labels, separator)
    && intent.tags == TagsOf(d.labels, refs) + TagsOf(app.labels, refs)
  }

  /** An expanded definition: one name of the consul label at its index, with the labels selected for it. */
  predicate NamesOneService(app: App, d: IndexedDefinition)
  {
    d.index < |Definitions(app)| &&
    var o := Definitions(app)[d.index];
    && Lookup(o.labels, CONSUL).Some?
    && d.name in Split(Lookup(o.labels, CONSUL).value, ',')
    && d.labels == Extract(d.name, o.labels)
  }

  /** Every intent belongs to one port definition that carries a consul label, in
      the order of the definitions: it has the task's port at that index, and its
      name and tags are those of one name of that label. */
  lemma IntentsFollowDefinitions(app: App, task: Task, separator: string) returns (ds: seq<IndexedDefinition>)
    requires NamedInRange(app, task) && ConsulDefinitions(Definitions(app)) != []
    ensures IsExpansion(ds, Definitions(app), Reach(Definitions(app), |task.ports|))
    ensures |ds| == |Intents(app, task, separator)|
    ensures forall i :: 0 <= i < |ds| ==> Realizes(app, task, separator, ds[i], Intents(app, task, separator)[i])
    ensures forall i :: 0 <= i < |ds| ==> NamesOneService(app, ds[i])
  {
    var all := Definitions(app);
    ds := InRange(ConsulDefinitions(all), |task.ports|);
    InRangeIsFirst(all, |task.ports|);
    InRangeSome(ConsulDefinitions(all), |task.ports|);
    ConsulDefinitionsExpand(all, Reach(all, |task.ports|));
    var refs := PlaceholderRefs(all, task.ports);
    IntentsAreInRange(app, ConsulDefinitions(all), task, separator, refs, TagsOf(app.labels, refs));
    forall i | 0 <= i < |ds|
      ensures Realizes(app, task, separator, ds[i], Intents(app, task, separator)[i])
      ensures NamesOneService(app, ds[i])
    {
      assert ds[i] in ds;
      ExpandedFrom(all, ds[i]);
    }
  }

  /** The plan is complete: with the task's port present, the `j`-th name of the `k`-th
      definition has its own intent, right after those of the names before it. */
  lemma EveryNameHasItsIntent(app: App, task: Task, separator: string, k: nat, j: nat)
    returns (i: nat, d: IndexedDefinition)
    requires NamedInRange(app, task) && k < |Definitions(app)| && k < |task.ports| && j < |NamesOf(Definitions(app)[k])|
    ensures i == NamesBefore(Definitions(app), k) + j && i < |Intents(app, task, separator)|
    ensures |Intents(app, task, separator)| == NamesBefore(Definitions(app), Reach(Definitions(app), |task.ports|))
    ensures d == Named(Definitions(app)[k], NamesOf(Definitions(app)[k])[j])
    ensures Realizes(app, task, separator, d, Intents(app, task, separator)[i])
  {
    var all := Definitions(app);
    SomeDefinition(all, k, j);
    var ds := IntentsFollowDefinitions(app, task, separator);
    i := NamesBefore(all, k) + j;
    assert Placed(ds, all, k, j);
    d := PlacedDefinition(ds, all, k, j);
  }

  lemma PlacedDefinition(ds: seq<IndexedDefinition>, all: seq<IndexedDefinition>, k: nat, j: nat)
    returns (d: IndexedDefinition)
    requires k < |all| && j < |NamesOf(all[k])| && Placed(ds, all, k, j)
    ensures var i := NamesBefore(all, k) + j; i < |ds| && d == ds[i]
    ensures d == Named(all[k], NamesOf(all[k])[j])
  {
    d := ds[NamesBefore(all, k) + j];
  }

  lemma SomeDefinition(all: seq<IndexedDefinition>, k: nat, j: nat)
    requires k < |all| && j < |NamesOf(all[k])|
    ensures ConsulDefinitions(all) != []
  {
    ConsulDefinitionsExpand(all, |all|);
    assert all[..|all|] == all;
    assert Placed(ConsulDefinitions(all), all, k, j);
  }

  // ---- the plan in terms of the labels as written ----------------------------

  /** A Go map has every key once. */
  predicate IsMap(labels: Labels) { forall i, j :: 0 <= i < j < |labels| ==> labels[i].key != labels[j].key }

  predicate HasLabel(labels: Labels, key: string, value: string) { IsMap(labels) && Label(key, value) in labels }

  lemma LookupIs(labels: Labels, key: string, value: string)
    requires HasLabel(labels, key, value)
    ensures Lookup(labels, key) == Some(value)
  {
    var i :| 0 <= i < |labels| && labels[i] == Label(key, value);
    var j :| 0 <= j < |labels| && labels[j] == Label(key, Lookup(labels, key).value);
  }

  lemma OtherKeysFollow(labels: Labels)
    requires IsMap(labels) && labels != []
    ensures forall value :: Label(labels[0].key, value) !in labels[1..]
  {
    forall l | l in labels[1..] ensures l.key != labels[0].key {
      var j :| 0 <= j < |labels[1..]| && labels[1..][j] == l;
      assert labels[j + 1] == l;
    }
  }

  /** A map of labels gives no tag twice. */
  lemma {:induction false} NoTagTwice(labels: Labels)
    requires IsMap(labels)
    ensures forall i, j :: 0 <= i < j < |TagKeys(labels)| ==> TagKeys(labels)[i] != TagKeys(labels)[j]
  {
    if labels != [] {
      NoTagTwice(labels[1..]);
      OtherKeysFollow(labels);
    }
  }

  /** The consul label that the labels selected for one of its names carry: the name in
      place of the list of names. A list with a colon is taken for a scoped tag. */
  lemma ExtractedName(name: string, labels: Labels, value: string)
    requires HasLabel(labels, "consul", value)
    ensures Lookup(Extract(name, labels), "consul") ==
            if ':' !in value then Some(name) else if ScopedTo(value, name) then Some("tag") else None
  {
    var extracted := Extract(name, labels);
    var i :| 0 <= i < |labels| && labels[i] == Label("consul", value);
    forall x ensures Label("consul", x) in extracted <==> Select(name, labels[i]) == Some(Label("consul", x)) {
      ExtractedLabels(name, labels, Label("consul", x));
      assert forall o :: o in labels && o.key == "consul" ==> o == labels[i];
    }
    SplitIsScoped(value, name);
    SplitJoins(value, ':');
    if Select(name, labels[i]).Some? {
      assert Label("consul", Select(name, labels[i]).value.value) in extracted;
    } else {
      assert forall l :: l in extracted && l.key == "consul" ==> l == Label("consul", l.value);
    }
  }

  /** A service name: without white space at its ends, then without slashes at its ends,
      and with the separator for every slash between. */
  lemma ServiceNameIs(name: string, separator: string)
    returns (before: string, slashes: string, core: string, slashes': string, after: string)
    ensures name == before + (slashes + core + slashes') + after
    ensures forall c :: c in before + after ==> IsSpace(c)
    ensures Only(slashes, '/') && Only(slashes', '/')
    ensures var kept := slashes + core + slashes'; kept != [] ==> !IsSpace(kept[0]) && !IsSpace(kept[|kept| - 1])
    ensures core != [] ==> core[0] != '/' && core[|core| - 1] != '/'
    ensures ServiceName(name, separator) == JoinText(Split(core, '/'), separator)
  {
    before, after := TrimSpaceIs(name);
    slashes, slashes' := TrimCharIs(TrimSpace(name), '/');
    core := TrimChar(TrimSpace(name), '/');
    ReplaceJoins(core, '/', separator);
  }

  /** A name without slashes and without white space at its ends is the service name. */
  lemma PlainName(name: string, separator: string)
    requires '/' !in name && (name != "" ==> !IsSpace(name[0]) && !IsSpace(name[|name| - 1]))
    ensures ServiceName(name, separator) == name
  {
    assert TrimSpace(name) == name && TrimChar(name, '/') == name;
    ReplaceJoins(name, '/', separator);
    SplitJoins(name, '/');
  }

  /** White space alone, or slashes alone, are blank. */
  lemma BlankName(name: string, separator: string)
    requires Only(name, '/') || forall c :: c in name ==> IsSpace(c)
    ensures ServiceName(name, separator) == ""
  {
    var before, slashes, core, slashes', after := ServiceNameIs(name, separator);
    var kept := slashes + core + slashes';
    assert forall c :: c in kept ==> c in name;
    assert forall i :: 0 <= i < |core| ==> core[i] in kept;
  }

  /** The name of a service is its label's, unless that is absent, "true" or blank; then it
      is that of the application. */
  lemma NameOfLabels(app: App, labels: Labels, separator: string)
    ensures (forall l :: l in labels ==> l.key != "consul") ==>
              LabelsToName(app, labels, separator) == ServiceName(app.id, separator)
    ensures forall value :: HasLabel(labels, "consul", value) ==>
              LabelsToName(app, labels, separator) ==
              if value in {"", "true"} || ServiceName(value, separator) == "" then ServiceName(app.id, separator)
              else ServiceName(value, separator)
  {
    forall value | HasLabel(labels, "consul", value) ensures Lookup(labels, "consul") == Some(value) {
      LookupIs(labels, "consul", value);
    }
  }

  /** The port definitions of an application; its port mappings, if it has any. */
  lemma DefinitionsAre(app: App, k: nat)
    ensures |Definitions(app)| == if app.portMappings == [] then |app.portDefinitions| else |app.portMappings|
    ensures k < |Definitions(app)| ==>
              var p := if app.portMappings == [] then app.portDefinitions[k] else app.portMappings[k];
              Definitions(app)[k] == IndexedDefinition(k, p.labels, p.name)
  {
  }

  lemma {:induction false} NoNames(all: seq<IndexedDefinition>, k: nat)
    requires k <= |all| && forall d, l :: d in all && l in d.labels ==> l.key != "consul"
    ensures NamesBefore(all, k) == 0
  {
    if k > 0 {
      NoNames(all, k - 1);
      assert all[k - 1] in all;
    }
  }

  /** Without any consul label on a port the plan is one service: the first port, the name
      and the tags of the application. A task without ports has none. */
  lemma DefaultIntent(app: App, task: Task, separator: string)
    requires NamedInRange(app, task)
    requires forall d, l :: d in Definitions(app) && l in d.labels ==> l.key != "consul"
    ensures Intents(app, task, separator) ==
            if task.ports == [] then []
            else [Intent(LabelsToName(app, app.labels, separator), task.ports[0],
                         TagsOf(app.labels, PlaceholderRefs(Definitions(app), task.ports)))]
  {
    NoNames(Definitions(app), |Definitions(app)|);
    ConsulDefinitionsExpand(Definitions(app), |Definitions(app)|);
    assert Definitions(app)[..|Definitions(app)|] == Definitions(app);
  }

  /** What the part `name` of a consul label calls a service. A label with a colon, taken for
      a scoped tag, calls it nothing, or "tag" if it is scoped to that very part. */
  function Called(value: string, name: string): string
  {
    if ':' !in value then name else if ScopedTo(value, name) then "tag" else ""
  }

  /** What the comma-separated part `name` of the consul label of the `k`-th port asks for:
      that port, the name that it calls the service or else that of the application, and
      the tags selected for it before the common ones. */
  predicate Serves(app: App, task: Task, separator: string, k: nat, value: string, name: string, intent: Intent)
    requires NamedInRange(app, task) && k < |Definitions(app)|
  {
    var refs, called := PlaceholderRefs(Definitions(app), task.ports), Called(value, name);
    && k < |task.ports| && intent.port == task.ports[k]
    && intent.name == (if called in {"", "true"} || ServiceName(called, separator) == "" then
                         ServiceName(app.id, separator)
                       else ServiceName(called, separator))
    && intent.tags == TagsOf(Extract(name, Definitions(app)[k].labels), refs) + TagsOf(app.labels, refs)
  }

  /** Every comma-separated part of a port's consul label, if the task has the port, is a
      service of the plan, with that name and that port. */
  lemma EveryPartHasItsIntent(app: App, task: Task, separator: string, k: nat, value: string, j: nat) returns (i: nat)
    requires NamedInRange(app, task) && k < |Definitions(app)| && k < |task.ports|
    requires HasLabel(Definitions(app)[k].labels, "consul", value) && j < |Split(value, ',')|
    ensures i < |Intents(app, task, separator)|
    ensures Serves(app, task, separator, k, value, Split(value, ',')[j], Intents(app, task, separator)[i])
  {
    NamesAreTheParts(Definitions(app)[k], value);
    var d;
    i, d := EveryNameHasItsIntent(app, task, separator, k, j);
    RealizedServes(app, task, separator, k, value, d, Intents(app, task, separator)[i]);
  }

  /** The names of a port are the comma-separated parts of its consul label. */
  lemma NamesAreTheParts(d: IndexedDefinition, value: string)
    requires HasLabel(d.labels, "consul", value)
    ensures NamesOf(d) == Split(value, ',')
  {
    LookupIs(d.labels, "consul", value);
  }

  lemma RealizedServes(app: App, task: Task, separator: string, k: nat, value: string, d: IndexedDefinition,
                       intent: Intent)
    requires NamedInRange(app, task) && k < |Definitions(app)|
    requires HasLabel(Definitions(app)[k].labels, "consul", value)
    requires Realizes(app, task, separator, d, intent) && d == Named(Definitions(app)[k], d.name)
    ensures Serves(app, task, separator, k, value, d.name, intent)
  {
    DefinitionsAre(app, k);
    PartName(app, Definitions(app)[k].labels, d.name, value, separator);
  }

  lemma PartName(app: App, labels: Labels, name: string, value: string, separator: string)
    requires HasLabel(labels, "consul", value)
    ensures var called := Called(value, name);
            LabelsToName(app, Extract(name, labels), separator) ==
            if called in {"", "true"} || ServiceName(called, separator) == "" then ServiceName(app.id, separator)
            else ServiceName(called, separator)
  {
    ExtractedName(name, labels, value);
  }
}
