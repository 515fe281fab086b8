/** Port placeholders in tags: `resolvePlaceholders` replaces them one after the
    other, in whatever order Go iterates over the map. */
module Placeholders {
  import opened Text

  const HEAD: string := "{port:"

  /** One entry of the placeholder map. */
  datatype PortRef = PortRef(name: string, port: int) {
    function Key(): (k: string)
      ensures k != [] && k[0] == '{'
    {
      HEAD + name + "}"
    }

    function Text(): (t: string)
      ensures t == Itoa(port)
    {
      Itoa(port)
    }
  }

  predicate BraceFree(s: string) { '{' !in s && '}' !in s }

  /** A Go map has one entry a name; the list order is the iteration order. */
  predicate ValidRefs(refs: seq<PortRef>)
  {
    (forall r :: r in refs ==> BraceFree(r.name)) && DistinctNames(refs)
  }

  predicate DistinctNames(refs: seq<PortRef>)
  {
    forall i, j :: 0 <= i < j < |refs| ==> refs[i].name != refs[j].name
  }

  function PortsOf(refs: seq<PortRef>): (m: map<string, int>)
    ensures forall n :: n in m <==> exists r :: r in refs && r.name == n
  {
    if refs == [] then map[] else PortsOf(refs[1..])[refs[0].name := refs[0].port]
  }

  lemma TailIsDistinct(refs: seq<PortRef>)
    requires DistinctNames(refs) && refs != []
    ensures DistinctNames(refs[1..]) && forall q :: q in refs[1..] ==> q.name != refs[0].name
  {
    forall q | q in refs[1..] ensures q.name != refs[0].name {
      var j :| 0 <= j < |refs[1..]| && refs[1..][j] == q;
      assert refs[j + 1] == q;
    }
  }

  lemma {:induction false} PortOfName(refs: seq<PortRef>, r: PortRef)
    requires DistinctNames(refs)
    ensures r in refs <==> r.name in PortsOf(refs) && PortsOf(refs)[r.name] == r.port
  {
    if refs != [] {
      TailIsDistinct(refs);
      PortOfName(refs[1..], r);
      assert refs == [refs[0]] + refs[1..];
    }
  }

  /** `resolvePlaceholders`, in the order of the list. */
  function Resolve(value: string, refs: seq<PortRef>): string
    decreases |refs|
  {
    if refs == [] then value
    else Resolve(ReplaceAll(value, refs[0].Key(), refs[0].Text()), refs[1..])
  }

  method ResolvePlaceholders(value: string, refs: seq<PortRef>) returns (r: string)
    ensures r == Resolve(value, refs)
  {
    r := value;
    for i := 0 to |refs|
      invariant Resolve(value, refs) == Resolve(r, refs[i..])
    {
      r := ReplaceAll(r, refs[i].Key(), refs[i].Text());
      assert refs[i..][1..] == refs[i + 1..];
    }
    assert refs[|refs|..] == [];
  }

  // ---- the reference: one pass from left to right ---------------------------

  /** The text before the first closing brace. */
  function UpToClose(s: string): (n: Option<string>)
    ensures n.Some? ==> |n.value| < |s|
  {
    if s == [] then None
    else if s[0] == '}' then Some("")
    else
      match UpToClose(s[1..])
      case None => None
      case Some(n) => Some([s[0]] + n)
  }

  lemma {:induction false} UpToCloseSplits(s: string)
    requires UpToClose(s).Some?
    ensures var n := UpToClose(s).value; '}' !in n && n + "}" <= s
  {
    if s[0] != '}' {
      UpToCloseSplits(s[1..]);
    }
  }

  lemma {:induction false} UpToCloseOf(n: string, rest: string)
    requires '}' !in n
    ensures UpToClose(n + "}" + rest) == Some(n)
  {
    var s := n + "}" + rest;
    assert s[|n|] == '}';
    if n != [] {
      assert s[0] == n[0] && n[0] in n && n == [n[0]] + n[1..];
      assert s[1..] == n[1..] + "}" + rest;
      UpToCloseOf(n[1..], rest);
    }
  }

  /** The name of the placeholder that starts the string, if it has a port. */
  function RefAt(s: string, ports: map<string, int>): (n: Option<string>)
    ensures n.Some? ==> n.value in ports && |HEAD| + |n.value| < |s|
  {
    if HEAD <= s && UpToClose(s[|HEAD|..]).Some? && UpToClose(s[|HEAD|..]).value in ports
    then UpToClose(s[|HEAD|..]) else None
  }

  lemma RefAtIsKey(s: string, ports: map<string, int>, n: string)
    requires n in ports && BraceFree(n)
    ensures RefAt(s, ports) == Some(n) <==> PortRef(n, ports[n]).Key() <= s
  {
    var k := PortRef(n, ports[n]).Key();
    if k <= s {
      var tail := s[|k|..];
      assert s == k + tail;
      assert s[|HEAD|..] == n + "}" + tail;
      UpToCloseOf(n, tail);
    }
    if RefAt(s, ports) == Some(n) {
      UpToCloseSplits(s[|HEAD|..]);
      assert s == HEAD + s[|HEAD|..];
    }
  }

  function OnePass(s: string, ports: map<string, int>): string
    decreases |s|
  {
    if s == [] then []
    else
      match RefAt(s, ports)
      case Some(n) =>
        Itoa(ports[n]) + OnePass(s[|HEAD| + |n| + 1..], ports)
      case None => [s[0]] + OnePass(s[1..], ports)
  }

  // ---- when the two agree ---------------------------------------------------

  /** The first brace, if any, is a closing one. */
  predicate Closes(s: string)
  {
    s == [] || s[0] == '}' || (s[0] != '{' && Closes(s[1..]))
  }

  /** No brace opens between a placeholder's head and its closing brace. */
  predicate NotNested(s: string)
  {
    s == [] || (NotNested(s[1..]) && (HEAD <= s ==> Closes(s[|HEAD|..])))
  }

  lemma {:induction false} ReplaceSkips(u: string, w: string, r: PortRef)
    requires '{' !in u
    ensures ReplaceAll(u + w, r.Key(), r.Text()) == u + ReplaceAll(w, r.Key(), r.Text())
  {
    if u == [] {
      assert u + w == w;
    } else {
      assert (u + w)[1..] == u[1..] + w;
      ReplaceSkips(u[1..], w, r);
    }
  }

  lemma {:induction false} OnePassSkips(u: string, w: string, ports: map<string, int>)
    requires '{' !in u
    ensures OnePass(u + w, ports) == u + OnePass(w, ports)
  {
    if u == [] {
      assert u + w == w;
    } else {
      assert (u + w)[1..] == u[1..] + w;
      OnePassSkips(u[1..], w, ports);
    }
  }

  lemma {:induction false} NotNestedSkips(u: string, w: string)
    requires '{' !in u
    ensures NotNested(u + w) == NotNested(w)
  {
    if u == [] {
      assert u + w == w;
    } else {
      assert (u + w)[0] == u[0] && u[0] in u;
      assert (u + w)[1..] == u[1..] + w;
      NotNestedSkips(u[1..], w);
    }
  }

  lemma NumbersAreNotInFront(q: string, t: string, w: string)
    requires q != [] && q[|q| - 1] != '-' && forall c :: c in q ==> !IsDigit(c)
    requires t != [] && (IsDigit(t[0]) || (t[0] == '-' && |t| > 1 && IsDigit(t[1])))
    ensures !(q <= t + w)
  {
    assert (t + w)[0] == t[0] && (|t| > 1 ==> (t + w)[1] == t[1]);
    assert q[0] in q && (|q| > 1 ==> q[1] in q);
  }

  /** A text without digits that does not end in a minus sign is in front after a
      replacement only if it was in front before. */
  lemma {:induction false} ReplaceForgesNothing(q: string, s: string, r: PortRef)
    requires forall c :: c in q ==> !IsDigit(c)
    requires q == [] || q[|q| - 1] != '-'
    requires q <= ReplaceAll(s, r.Key(), r.Text())
    ensures q <= s
  {
    if q != [] && s != [] {
      var out := ReplaceAll(s, r.Key(), r.Text());
      assert q[0] == out[0];
      if r.Key() <= s {
        NumbersAreNotInFront(q, r.Text(), ReplaceAll(s[|r.Key()|..], r.Key(), r.Text()));
      }
      assert out == [s[0]] + out[1..];
      assert q[1..] <= out[1..];
      ReplaceForgesNothing(q[1..], s[1..], r);
      assert q == [q[0]] + q[1..] && s == [s[0]] + s[1..];
    }
  }

  lemma {:induction false} ReplaceKeepsName(s: string, r: PortRef)
    requires Closes(s)
    ensures Closes(ReplaceAll(s, r.Key(), r.Text()))
    ensures UpToClose(ReplaceAll(s, r.Key(), r.Text())) == UpToClose(s)
  {
    if s != [] && s[0] != '}' {
      ReplaceKeepsName(s[1..], r);
    }
  }

  /** Past a head nothing that a replacement changes can hide the name. */
  lemma HeadAfterReplace(s: string, r: PortRef)
    requires s != [] && NotNested(s) && !(r.Key() <= s)
    requires HEAD <= ReplaceAll(s, r.Key(), r.Text())
    ensures HEAD <= s
    ensures ReplaceAll(s, r.Key(), r.Text())[|HEAD|..] == ReplaceAll(s[|HEAD|..], r.Key(), r.Text())
    ensures Closes(ReplaceAll(s[|HEAD|..], r.Key(), r.Text()))
    ensures UpToClose(ReplaceAll(s[|HEAD|..], r.Key(), r.Text())) == UpToClose(s[|HEAD|..])
  {
    var out := ReplaceAll(s, r.Key(), r.Text());
    assert HEAD[1..] <= out[1..];
    ReplaceForgesNothing(HEAD[1..], s[1..], r);
    assert HEAD == [HEAD[0]] + HEAD[1..] && s == [s[0]] + s[1..];
    assert s[1..] == HEAD[1..] + s[|HEAD|..];
    ReplaceSkips(HEAD[1..], s[|HEAD|..], r);
    assert out == [s[0]] + (HEAD[1..] + ReplaceAll(s[|HEAD|..], r.Key(), r.Text()));
    ReplaceKeepsName(s[|HEAD|..], r);
  }

  lemma {:induction false} ReplaceKeepsNotNested(s: string, r: PortRef)
    requires NotNested(s)
    ensures NotNested(ReplaceAll(s, r.Key(), r.Text()))
    decreases |s|
  {
    if s == [] {
    } else if r.Key() <= s {
      assert forall i :: 0 <= i <= |s| ==> NotNested(s[i..]) by {
        forall i | 0 <= i <= |s| ensures NotNested(s[i..]) { NotNestedTail(s, i); }
      }
      ReplaceKeepsNotNested(s[|r.Key()|..], r);
      NotNestedSkips(r.Text(), ReplaceAll(s[|r.Key()|..], r.Key(), r.Text()));
    } else {
      ReplaceKeepsNotNested(s[1..], r);
      var out := ReplaceAll(s, r.Key(), r.Text());
      assert out[1..] == ReplaceAll(s[1..], r.Key(), r.Text());
      if HEAD <= out {
        HeadAfterReplace(s, r);
      }
    }
  }

  lemma {:induction false} NotNestedTail(s: string, i: nat)
    requires NotNested(s) && i <= |s|
    ensures NotNested(s[i..])
  {
    if i > 0 {
      NotNestedTail(s[1..], i - 1);
      assert s[1..][i - 1..] == s[i..];
    }
  }

  /** A replacement steps over the placeholder of another name. */
  lemma OtherNameStays(s: string, ports: map<string, int>, m: string, n: string) returns (rest: string)
    requires n in ports && BraceFree(m) && RefAt(s, ports) == Some(m)
    requires !(PortRef(n, ports[n]).Key() <= s)
    ensures rest == s[|HEAD| + |m| + 1..]
    ensures var out := ReplaceAll(s, PortRef(n, ports[n]).Key(), Itoa(ports[n]));
            var after := ReplaceAll(rest, PortRef(n, ports[n]).Key(), Itoa(ports[n]));
            && m != n && RefAt(out, ports - {n}) == Some(m)
            && |HEAD| + |m| < |out| && out[|HEAD| + |m| + 1..] == after
  {
    var r, key := PortRef(n, ports[n]), PortRef(m, ports[m]).Key();
    RefAtIsKey(s, ports, m);
    rest := s[|key|..];
    assert s == key + rest && s[1..] == key[1..] + rest;
    ReplaceSkips(key[1..], rest, r);
    var out := ReplaceAll(s, r.Key(), r.Text());
    assert out == key + ReplaceAll(rest, r.Key(), r.Text());
    RefAtIsKey(out, ports - {n}, m);
  }

  lemma OtherNameStep(s: string, ports: map<string, int>, n: string) returns (rest: string)
    requires n in ports && (forall m :: m in ports ==> BraceFree(m)) && RefAt(s, ports).Some?
    requires !(PortRef(n, ports[n]).Key() <= s)
    ensures |rest| < |s| && rest == s[|s| - |rest|..]
    ensures var m := RefAt(s, ports).value;
            && OnePass(s, ports) == Itoa(ports[m]) + OnePass(rest, ports)
            && OnePass(ReplaceAll(s, PortRef(n, ports[n]).Key(), Itoa(ports[n])), ports - {n}) ==
               Itoa(ports[m]) + OnePass(ReplaceAll(rest, PortRef(n, ports[n]).Key(), Itoa(ports[n])), ports - {n})
  {
    rest := OtherNameStays(s, ports, RefAt(s, ports).value, n);
  }

  lemma PlainStep(s: string, ports: map<string, int>, n: string)
    requires s != [] && NotNested(s) && n in ports && RefAt(s, ports).None?
    requires !(PortRef(n, ports[n]).Key() <= s)
    ensures OnePass(s, ports) == [s[0]] + OnePass(s[1..], ports)
    ensures OnePass(ReplaceAll(s, PortRef(n, ports[n]).Key(), Itoa(ports[n])), ports - {n}) ==
            [s[0]] + OnePass(ReplaceAll(s[1..], PortRef(n, ports[n]).Key(), Itoa(ports[n])), ports - {n})
  {
    var r := PortRef(n, ports[n]);
    var out := ReplaceAll(s, r.Key(), r.Text());
    assert out[1..] == ReplaceAll(s[1..], r.Key(), r.Text());
    assert RefAt(out, ports - {n}) == None by {
      if HEAD <= out {
        HeadAfterReplace(s, r);
      }
    }
  }

  /** Doing one name first leaves the one-pass result as it is. */
  lemma {:induction false} OneNameFirst(s: string, ports: map<string, int>, n: string)
    requires NotNested(s) && n in ports && forall m :: m in ports ==> BraceFree(m)
    ensures OnePass(ReplaceAll(s, PortRef(n, ports[n]).Key(), Itoa(ports[n])), ports - {n}) == OnePass(s, ports)
    decreases |s|
  {
    var r := PortRef(n, ports[n]);
    RefAtIsKey(s, ports, n);
    if s == [] {
    } else if r.Key() <= s {
      NotNestedTail(s, |r.Key()|);
      OneNameFirst(s[|r.Key()|..], ports, n);
      OnePassSkips(r.Text(), ReplaceAll(s[|r.Key()|..], r.Key(), r.Text()), ports - {n});
    } else if RefAt(s, ports).Some? {
      var rest := OtherNameStep(s, ports, n);
      NotNestedTail(s, |s| - |rest|);
      OneNameFirst(rest, ports, n);
    } else {
      PlainStep(s, ports, n);
      OneNameFirst(s[1..], ports, n);
    }
  }

  /** Replacing the placeholders one by one is the simultaneous substitution. */
  lemma {:induction false} ResolveIsOnePass(value: string, refs: seq<PortRef>)
    requires ValidRefs(refs) && NotNested(value)
    ensures Resolve(value, refs) == OnePass(value, PortsOf(refs))
    decreases |refs|
  {
    if refs == [] {
      OnePassOfNothing(value);
    } else {
      var r, ports := refs[0], PortsOf(refs);
      assert forall m :: m in ports ==> BraceFree(m);
      OneNameFirst(value, ports, r.name);
      TailIsDistinct(refs);
      assert ports - {r.name} == PortsOf(refs[1..]);
      ReplaceKeepsNotNested(value, r);
      ResolveIsOnePass(ReplaceAll(value, r.Key(), r.Text()), refs[1..]);
    }
  }

  lemma {:induction false} OnePassOfNothing(s: string)
    ensures OnePass(s, map[]) == s
  {
    if s != [] {
      OnePassOfNothing(s[1..]);
    }
  }

  /** So for such a key the order in which Go iterates over the map does not matter. */
  lemma OrderIsIrrelevant(value: string, refs: seq<PortRef>, refs': seq<PortRef>)
    requires ValidRefs(refs) && ValidRefs(refs') && PortsOf(refs) == PortsOf(refs')
    requires NotNested(value)
    ensures Resolve(value, refs) == Resolve(value, refs')
  {
    ResolveIsOnePass(value, refs);
    ResolveIsOnePass(value, refs');
  }

  lemma ReplaceItself(r: PortRef, w: string)
    requires '{' !in w
    ensures ReplaceAll(r.Key() + w, r.Key(), r.Text()) == r.Text() + w
  {
    assert (r.Key() + w)[|r.Key()|..] == w;
    ReplaceSkips(w, "", r);
    assert w + "" == w;
  }

  /** No resolved tag gains a prefix free of digits, such as the owner prefix. */
  lemma {:induction false} ResolveForgesNothing(q: string, value: string, refs: seq<PortRef>)
    requires forall c :: c in q ==> !IsDigit(c)
    requires q == [] || q[|q| - 1] != '-'
    requires q <= Resolve(value, refs)
    ensures q <= value
    decreases |refs|
  {
    if refs != [] {
      ResolveForgesNothing(q, ReplaceAll(value, refs[0].Key(), refs[0].Text()), refs[1..]);
      ReplaceForgesNothing(q, value, refs[0]);
    }
  }
}
