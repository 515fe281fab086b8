/** The strings in which marathon-consul hides identities, and how it reads them
    back: application IDs inside task IDs, task IDs inside owner tags and inside
    service IDs, and task IDs inside Marathon 1.4 instance IDs. */
module Identity {
  import opened Text

  type AppId = string
  type TaskId = string
  type ServiceId = string

  // ---- application ID inside a task ID --------------------------------------

  /** `TaskID.AppID`. Without a dot the Go slice expression panics. */
  function AppIdOf(id: TaskId): AppId
    requires '.' in id
  {
    "/" + ReplaceChar(id[..LastIndexOf(id, '.')], '_', '/')
  }

  /** Marathon's naming of the tasks of application "/" + path. */
  function TaskIdFor(path: string, suffix: string): (id: TaskId)
    ensures '.' in id
  {
    var id := ReplaceChar(path, '/', '_') + "." + suffix;
    assert id[|path|] == '.';
    id
  }

  /** The application ID comes back exactly when it holds no underscore. */
  lemma AppIdRoundTrip(path: string, suffix: string)
    requires '.' !in suffix
    ensures AppIdOf(TaskIdFor(path, suffix)) == "/" + path <==> '_' !in path
  {
    var id := TaskIdFor(path, suffix);
    var encoded := ReplaceChar(path, '/', '_');
    LastIndexIs(encoded, '.', suffix);
    assert id[..|encoded|] == encoded;
    var decoded := ReplaceChar(encoded, '_', '/');
    assert AppIdOf(id) == "/" + decoded;
    assert AppIdOf(id)[1..] == decoded && ("/" + path)[1..] == path;
    if '_' in path {
      var i :| 0 <= i < |path| && path[i] == '_';
      assert decoded[i] == '/';
    } else {
      assert decoded == path;
    }
  }

  // ---- service IDs ----------------------------------------------------------

  /** `Consul.serviceID`. */
  function ServiceIdOf(task: TaskId, name: string, port: int): ServiceId
  {
    task + "_" + name + "_" + Itoa(port)
  }

  /** For one task the ID determines name and port, underscores in the name included. */
  lemma ServiceIdDeterminesSlot(task: TaskId, name: string, port: int, name': string, port': int)
    requires ServiceIdOf(task, name, port) == ServiceIdOf(task, name', port')
    ensures name == name' && port == port'
  {
    LastSplitUnique(task + "_" + name, Itoa(port), task + "_" + name', Itoa(port'), '_');
    assert name == (task + "_" + name)[|task| + 1..];
    assert name' == (task + "_" + name')[|task| + 1..];
    ItoaInjective(port, port');
  }

  /** Neither task ID, followed by an underscore, starts the other. */
  predicate Apart(t: TaskId, t': TaskId)
  {
    !(t + "_" <= t' + "_") && !(t' + "_" <= t + "_")
  }

  lemma MeetingTasksAreNotApart(t: TaskId, n: string, p: int, t': TaskId, n': string, p': int)
    requires ServiceIdOf(t, n, p) == ServiceIdOf(t', n', p')
    ensures !Apart(t, t')
  {
    var id := ServiceIdOf(t, n, p);
    assert id == ServiceIdOf(t', n', p');
    assert id[..|t| + 1] == t + "_" && id[..|t'| + 1] == t' + "_";
    if |t| <= |t'| {
      assert (t' + "_")[..|t| + 1] == id[..|t'| + 1][..|t| + 1] == id[..|t| + 1];
    } else {
      assert (t + "_")[..|t'| + 1] == id[..|t| + 1][..|t'| + 1] == id[..|t'| + 1];
    }
  }

  lemma SameLength(t: TaskId, t': TaskId)
    requires |t| == |t'| && t + "_" <= t' + "_"
    ensures t == t'
  {
    assert t == (t + "_")[..|t|] && t' == (t' + "_")[..|t|];
  }

  /** A task ID that continues another after an underscore does share service IDs with it. */
  lemma PrefixTaskMeets(t: TaskId, t': TaskId, n: string, p: int) returns (name: string)
    requires t != t' && t + "_" <= t' + "_"
    ensures ServiceIdOf(t, name, p) == ServiceIdOf(t', n, p)
  {
    assert (t' + "_")[..|t| + 1] == t + "_";
    if |t'| == |t| {
      SameLength(t, t');
    }
    var z := t'[|t| + 1..];
    assert t' == t + "_" + z by {
      assert t'[..|t| + 1] == (t' + "_")[..|t| + 1];
    }
    name := z + "_" + n;
    assert ServiceIdOf(t, name, p) == ServiceIdOf(t', n, p);
  }

  /** Two tasks can be given one service ID exactly when they are not `Apart`. */
  lemma ServiceIdsMeetIff(t: TaskId, t': TaskId)
    requires t != t'
    ensures (exists n, p, n', p' :: ServiceIdOf(t, n, p) == ServiceIdOf(t', n', p')) <==> !Apart(t, t')
  {
    if Apart(t, t') {
      forall n, p, n', p' ensures ServiceIdOf(t, n, p) != ServiceIdOf(t', n', p') {
        if ServiceIdOf(t, n, p) == ServiceIdOf(t', n', p') {
          MeetingTasksAreNotApart(t, n, p, t', n', p');
        }
      }
    } else if t + "_" <= t' + "_" {
      var name := PrefixTaskMeets(t, t', "", 0);
      assert ServiceIdOf(t, name, 0) == ServiceIdOf(t', "", 0);
    } else {
      var name := PrefixTaskMeets(t', t, "", 0);
      assert ServiceIdOf(t, "", 0) == ServiceIdOf(t', name, 0);
    }
  }

  /** Tasks of dot-free applications, with the usual UUID suffixes, are always apart. */
  lemma DotFreeAppsAreApart(path: string, suffix: string, path': string, suffix': string)
    requires '.' !in path && '.' !in path'
    requires '.' !in suffix + suffix' && '_' !in suffix + suffix'
    requires TaskIdFor(path, suffix) != TaskIdFor(path', suffix')
    ensures Apart(TaskIdFor(path, suffix), TaskIdFor(path', suffix'))
  {
    if TaskIdFor(path, suffix) + "_" <= TaskIdFor(path', suffix') + "_" {
      DotFreePrefix(path, suffix, path', suffix');
    }
    if TaskIdFor(path', suffix') + "_" <= TaskIdFor(path, suffix) + "_" {
      DotFreePrefix(path', suffix', path, suffix);
    }
  }

  lemma DotFreePrefix(path: string, suffix: string, path': string, suffix': string)
    requires '.' !in path && '.' !in path'
    requires '.' !in suffix + suffix' && '_' !in suffix + suffix'
    requires TaskIdFor(path, suffix) + "_" <= TaskIdFor(path', suffix') + "_"
    ensures TaskIdFor(path, suffix) == TaskIdFor(path', suffix')
  {
    var t, t' := TaskIdFor(path, suffix), TaskIdFor(path', suffix');
    assert forall i :: 0 <= i < |t| ==> t[i] == (t + "_")[i] == (t' + "_")[i];
    assert t'[|path|] == t[|path|] == '.';
    // the only dot of either ID ends its path, and no underscore follows it
    assert forall i :: 0 <= i < |t'| && i < |path'| ==>
           t'[i] == (if path'[i] == '/' then '_' else path'[i]) && t'[i] != '.';
    assert forall i :: |path'| < i < |t'| ==> t'[i] == suffix'[i - |path'| - 1] && t'[i] in suffix + suffix';
    assert |path| == |path'|;
    assert (t' + "_")[|t|] == (t + "_")[|t|] == '_';
    assert |t| == |t'|;
    SameLength(t, t');
  }

  // ---- owner tags -----------------------------------------------------------

  const OWNER_PREFIX: string := "marathon-task:"

  /** `MarathonTaskTag`. */
  function OwnerTag(id: TaskId): (tag: string)
    ensures OWNER_PREFIX <= tag && tag[|OWNER_PREFIX|..] == id && tag == "marathon-task:" + id
  {
    OWNER_PREFIX + id
  }

  /** `Service.TaskID`: the first tag with the prefix names the owner. */
  function Owner(tags: seq<string>): Option<TaskId>
  {
    if tags == [] then None
    else if OWNER_PREFIX <= tags[0] then Some(tags[0][|OWNER_PREFIX|..])
    else Owner(tags[1..])
  }

  /** The same search as the loop that the code runs. */
  method ReadOwner(tags: seq<string>) returns (owner: Option<TaskId>)
    ensures owner == Owner(tags)
    ensures owner.Some? <==> exists t :: t in tags && OWNER_PREFIX <= t
    ensures owner.Some? ==>
              exists i :: 0 <= i < |tags| && tags[i] == "marathon-task:" + owner.value &&
                          forall j :: 0 <= j < i ==> !(OWNER_PREFIX <= tags[j])
  {
    for i := 0 to |tags|
      invariant forall j :: 0 <= j < i ==> !(OWNER_PREFIX <= tags[j])
      invariant Owner(tags) == Owner(tags[i..])
    {
      if OWNER_PREFIX <= tags[i] {
        assert tags[i] in tags && tags[i] == OwnerTag(tags[i][|OWNER_PREFIX|..]);
        return Some(tags[i][|OWNER_PREFIX|..]);
      }
      assert tags[i..][1..] == tags[i + 1..];
    }
    assert tags[|tags|..] == [];
    return None;
  }

  /** The owner tag appended last is read back exactly when the tags before it
      name nobody, or the same task. */
  lemma {:induction false} AppendedOwner(before: seq<string>, id: TaskId)
    ensures Owner(before + [OwnerTag(id)]) == Some(id) <==> Owner(before) in {None, Some(id)}
    ensures Owner(before) == None <==> forall t :: t in before ==> !(OWNER_PREFIX <= t)
  {
    if before == [] {
      assert before + [OwnerTag(id)] == [OwnerTag(id)];
    } else {
      AppendedOwner(before[1..], id);
      assert before[0] in before;
      assert (before + [OwnerTag(id)])[1..] == before[1..] + [OwnerTag(id)];
      assert forall t :: t in before <==> t == before[0] || t in before[1..];
    }
  }

  // ---- Marathon 1.4 instance IDs --------------------------------------------

  const INSTANCE: string := "instance-"
  const MARATHON: string := "marathon-"

  /** A match of the regular expression ^(.+)\.(instance-|marathon-)([^\.]+)$. */
  ghost predicate InstanceMatch(id: string, app: string, kind: string, uuid: string)
  {
    && id == app + "." + (kind + uuid)
    && app != "" && '\n' !in app
    && (kind == "instance-" || kind == "marathon-")
    && uuid != "" && '.' !in uuid
  }

  /** The part after the last dot without its kind. */
  function StripKind(tail: string): Option<string>
  {
    if (INSTANCE <= tail || MARATHON <= tail) && |tail| > |INSTANCE| then Some(tail[|INSTANCE|..]) else None
  }

  lemma StripKindIff(tail: string)
    ensures forall kind, uuid :: (kind == INSTANCE || kind == MARATHON) && uuid != "" && tail == kind + uuid ==>
              StripKind(tail) == Some(uuid)
    ensures StripKind(tail).Some? ==>
              StripKind(tail).value != "" && (forall c :: c in StripKind(tail).value ==> c in tail) &&
              (tail == INSTANCE + StripKind(tail).value || tail == MARATHON + StripKind(tail).value)
  {
    forall kind, uuid | (kind == INSTANCE || kind == MARATHON) && uuid != "" && tail == kind + uuid
      ensures StripKind(tail) == Some(uuid)
    {
      assert tail[..|kind|] == kind && tail[|kind|..] == uuid;
    }
  }

  /** What `ReplaceAllString(id, "$1.$3")` does with that expression. */
  function NormalizeInstance(id: string): string
  {
    var i := LastIndexOf(id, '.');
    if i < 1 || '\n' in id[..i] then id
    else
      match StripKind(id[i + 1..])
      case Some(uuid) => id[..i] + "." + uuid
      case None => id
  }

  /** `TaskHealthChange.TaskID`. */
  function HealthTaskId(id: TaskId, instanceId: string): (task: TaskId)
    ensures id != "" ==> task == id
    ensures id == "" ==> task == NormalizeInstance(instanceId)
  {
    if id != "" then id else NormalizeInstance(instanceId)
  }

  /** The computed replacement is the regular expression's. */
  lemma NormalizeIsTheRegex(id: string)
    ensures forall app, kind, uuid ::
              InstanceMatch(id, app, kind, uuid) ==> NormalizeInstance(id) == app + "." + uuid
    ensures (forall app, kind, uuid :: !InstanceMatch(id, app, kind, uuid)) ==> NormalizeInstance(id) == id
  {
    forall app, kind, uuid | InstanceMatch(id, app, kind, uuid)
      ensures NormalizeInstance(id) == app + "." + uuid
    {
      MatchIsNormalized(app, kind, uuid);
    }
    if NormalizeInstance(id) != id {
      var app, kind, uuid := NormalizedIsAMatch(id);
    }
  }

  lemma NormalizedIsAMatch(id: string) returns (app: string, kind: string, uuid: string)
    requires NormalizeInstance(id) != id
    ensures InstanceMatch(id, app, kind, uuid)
  {
    var i := LastIndexOf(id, '.');
    var tail := id[i + 1..];
    SplitAtLastDot(id);
    StripKindIff(tail);
    app, uuid := id[..i], StripKind(tail).value;
    kind := if tail == INSTANCE + uuid then INSTANCE else MARATHON;
  }

  lemma SplitAtLastDot(id: string)
    requires LastIndexOf(id, '.') >= 0
    ensures var i := LastIndexOf(id, '.'); id == id[..i] + "." + id[i + 1..] && '.' !in id[i + 1..]
  {
  }

  lemma NoDotInKind(kind: string)
    requires kind == INSTANCE || kind == MARATHON
    ensures '.' !in kind
  {
  }

  lemma MatchIsNormalized(app: string, kind: string, uuid: string)
    requires InstanceMatch(app + "." + (kind + uuid), app, kind, uuid)
    ensures NormalizeInstance(app + "." + (kind + uuid)) == app + "." + uuid
  {
    var tail := kind + uuid;
    var id := app + "." + tail;
    NoDotInKind(kind);
    LastIndexIs(app, '.', tail);
    StripKindIff(tail);
    assert id[..|app|] == app && id[|app| + 1..] == tail;
  }

  /** Whatever the instance ID, the application it belongs to survives. */
  lemma NormalizeKeepsApp(id: string)
    requires '.' in id
    ensures '.' in NormalizeInstance(id)
    ensures AppIdOf(NormalizeInstance(id)) == AppIdOf(id)
  {
    if NormalizeInstance(id) != id {
      var app, kind, uuid := NormalizedIsAMatch(id);
      MatchIsNormalized(app, kind, uuid);
      NoDotInKind(kind);
      AppIdOfPrefix(app, uuid);
      AppIdOfPrefix(app, kind + uuid);
    }
  }

  lemma AppIdOfPrefix(app: string, suffix: string)
    requires '.' !in suffix
    ensures '.' in app + "." + suffix
    ensures AppIdOf(app + "." + suffix) == "/" + ReplaceChar(app, '_', '/')
  {
    var id := app + "." + suffix;
    assert id[|app|] == '.' && id[..|app|] == app;
    LastIndexIs(app, '.', suffix);
  }
}
