/** When the order of replacing placeholders can matter, over all tags: exactly when
    some port number occurs in the name of another port. */
module PlaceholderOrder {
  import opened Text
  import opened Placeholders

  predicate Occurs(t: string, s: string)
  {
    t <= s || (s != [] && Occurs(t, s[1..]))
  }

  /** No port number is part of the name of another port. */
  predicate Independent(refs: seq<PortRef>)
  {
    forall q, r :: q in refs && r in refs && q != r ==> !Occurs(r.Text(), q.name)
  }

  /** Every order of the same map gives the same tag, whatever the key. */
  ghost predicate OrderFree(refs: seq<PortRef>)
  {
    forall value, refs' :: ValidRefs(refs') && PortsOf(refs') == PortsOf(refs) ==>
      Resolve(value, refs') == Resolve(value, refs)
  }

  lemma {:induction false} OccursSplits(t: string, s: string) returns (u: string, w: string)
    requires Occurs(t, s)
    ensures s == u + t + w
  {
    if t <= s {
      u, w := "", s[|t|..];
    } else {
      u, w := OccursSplits(t, s[1..]);
      u := [s[0]] + u;
    }
  }

  lemma {:induction false} SplitOccurs(u: string, t: string, w: string)
    ensures Occurs(t, u + t + w)
  {
    if u == [] {
      assert (u + t + w)[..|t|] == t;
    } else {
      assert (u + t + w)[1..] == u[1..] + t + w;
      SplitOccurs(u[1..], t, w);
    }
  }

  // ---- two replacements commute ---------------------------------------------

  lemma TextIsPlain(r: PortRef)
    ensures BraceFree(r.Text()) && r.Text() != [] && r.Text()[0] !in "port:"
  {
  }

  lemma PlainPrefix(t: string, x: string, rest: string)
    requires BraceFree(t) && x + "}" <= t + rest
    ensures t <= x
  {
    var out := t + rest;
    assert forall i :: 0 <= i < |x| ==> out[i] == (x + "}")[i] == x[i];
    assert out[|x|] == (x + "}")[|x|] == '}';
    assert |x| >= |t|;
  }

  /** What ends in a brace is in front after a replacement only if it was before. */
  lemma {:induction false} NothingForged(x: string, t: string, q: PortRef)
    requires BraceFree(x) && x + "}" <= ReplaceAll(t, q.Key(), q.Text()) && !Occurs(q.Text(), x)
    ensures x + "}" <= t
  {
    var out := ReplaceAll(t, q.Key(), q.Text());
    TextIsPlain(q);
    if t == [] {
    } else if q.Key() <= t {
      PlainPrefix(q.Text(), x, ReplaceAll(t[|q.Key()|..], q.Key(), q.Text()));
    } else {
      assert out == [t[0]] + out[1..] && (x + "}")[0] == out[0] == t[0];
      if x != [] {
        assert (x + "}")[1..] == x[1..] + "}";
        assert x[1..] + "}" <= out[1..];
        NothingForged(x[1..], t[1..], q);
        assert x + "}" == [x[0]] + (x[1..] + "}") && t == [t[0]] + t[1..];
      }
    }
  }

  lemma {:induction false} NotBehind(t: string, h: string, s: string)
    requires t != [] && t[0] !in h && !Occurs(t, s)
    ensures !Occurs(t, h + s)
  {
    if h == [] {
      assert h + s == s;
    } else {
      assert (h + s)[0] == h[0] && h[0] in h && (h + s)[1..] == h[1..] + s;
      NotBehind(t, h[1..], s);
    }
  }

  /** No key appears where there was none. */
  lemma KeyNotForged(v: string, q: PortRef, r: PortRef)
    requires v != [] && BraceFree(r.name) && !Occurs(q.Text(), r.name) && !(r.Key() <= v)
    ensures !(r.Key() <= [v[0]] + ReplaceAll(v[1..], q.Key(), q.Text()))
  {
    var out := [v[0]] + ReplaceAll(v[1..], q.Key(), q.Text());
    var x := "port:" + r.name;
    assert r.Key() == "{" + (x + "}") && v == [v[0]] + v[1..];
    if r.Key() <= out {
      assert r.Key()[1..] == x + "}" && r.Key()[1..] <= out[1..] && out[1..] == ReplaceAll(v[1..], q.Key(), q.Text());
      TextIsPlain(q);
      NotBehind(q.Text(), "port:", r.name);
      NothingForged(x, v[1..], q);
    }
  }

  lemma {:induction false} OtherKeyStays(q: PortRef, r: PortRef, w: string)
    requires BraceFree(q.name) && BraceFree(r.name) && q.name != r.name
    ensures ReplaceAll(q.Key() + w, r.Key(), r.Text()) == q.Key() + ReplaceAll(w, r.Key(), r.Text())
  {
    var v := q.Key() + w;
    if r.Key() <= v {
      DifferentKeys(q, r, w);
    }
    assert q.Key()[1..] == "port:" + q.name + "}";
    assert v[1..] == q.Key()[1..] + w;
    ReplaceSkips(q.Key()[1..], w, r);
  }

  lemma DifferentKeys(q: PortRef, r: PortRef, w: string)
    requires BraceFree(q.name) && BraceFree(r.name) && r.Key() <= q.Key() + w
    ensures q.name == r.name
  {
    var v := q.Key() + w;
    assert v == r.Key() + v[|r.Key()|..];
    assert v[|HEAD|..] == q.name + "}" + w == r.name + "}" + v[|r.Key()|..];
    UpToCloseOf(q.name, w);
    UpToCloseOf(r.name, v[|r.Key()|..]);
  }

  lemma {:induction false} Commute(v: string, q: PortRef, r: PortRef)
    requires BraceFree(q.name) && BraceFree(r.name) && q.name != r.name
    requires !Occurs(q.Text(), r.name) && !Occurs(r.Text(), q.name)
    ensures ReplaceAll(ReplaceAll(v, q.Key(), q.Text()), r.Key(), r.Text()) ==
            ReplaceAll(ReplaceAll(v, r.Key(), r.Text()), q.Key(), q.Text())
    decreases |v|
  {
    if v == [] {
    } else if q.Key() <= v {
      CommuteBehind(v[|q.Key()|..], q, r);
      assert v == q.Key() + v[|q.Key()|..];
      Commute(v[|q.Key()|..], q, r);
    } else if r.Key() <= v {
      CommuteBehind(v[|r.Key()|..], r, q);
      assert v == r.Key() + v[|r.Key()|..];
      Commute(v[|r.Key()|..], q, r);
    } else {
      KeyNotForged(v, q, r);
      KeyNotForged(v, r, q);
      var one, other := ReplaceAll(v, q.Key(), q.Text()), ReplaceAll(v, r.Key(), r.Text());
      assert one[1..] == ReplaceAll(v[1..], q.Key(), q.Text()) && other[1..] == ReplaceAll(v[1..], r.Key(), r.Text());
      Commute(v[1..], q, r);
    }
  }

  lemma CommuteBehind(w: string, q: PortRef, r: PortRef)
    requires BraceFree(q.name) && BraceFree(r.name) && q.name != r.name
    ensures ReplaceAll(ReplaceAll(q.Key() + w, q.Key(), q.Text()), r.Key(), r.Text()) ==
            q.Text() + ReplaceAll(ReplaceAll(w, q.Key(), q.Text()), r.Key(), r.Text())
    ensures ReplaceAll(ReplaceAll(q.Key() + w, r.Key(), r.Text()), q.Key(), q.Text()) ==
            q.Text() + ReplaceAll(ReplaceAll(w, r.Key(), r.Text()), q.Key(), q.Text())
  {
    TextIsPlain(q);
    assert (q.Key() + w)[|q.Key()|..] == w;
    ReplaceSkips(q.Text(), ReplaceAll(w, q.Key(), q.Text()), r);
    OtherKeyStays(q, r, w);
    var rest := ReplaceAll(w, r.Key(), r.Text());
    assert (q.Key() + rest)[|q.Key()|..] == rest;
  }

  // ---- orders of one map ----------------------------------------------------

  lemma TailIsValid(refs: seq<PortRef>)
    requires ValidRefs(refs) && refs != []
    ensures ValidRefs(refs[1..]) && forall q :: q in refs[1..] ==> q.name != refs[0].name
  {
    TailIsDistinct(refs);
  }

  lemma SameEntries(refs: seq<PortRef>, refs': seq<PortRef>)
    requires ValidRefs(refs) && ValidRefs(refs')
    ensures PortsOf(refs) == PortsOf(refs') <==> forall r :: r in refs <==> r in refs'
  {
    forall r ensures r in refs <==> r.name in PortsOf(refs) && PortsOf(refs)[r.name] == r.port {
      PortOfName(refs, r);
    }
    forall r ensures r in refs' <==> r.name in PortsOf(refs') && PortsOf(refs')[r.name] == r.port {
      PortOfName(refs', r);
    }
    if forall r :: r in refs <==> r in refs' {
      forall n ensures n in PortsOf(refs) ==> n in PortsOf(refs') && PortsOf(refs')[n] == PortsOf(refs)[n] {
        if n in PortsOf(refs) { assert PortRef(n, PortsOf(refs)[n]) in refs; }
      }
      forall n ensures n in PortsOf(refs') ==> n in PortsOf(refs) {
        if n in PortsOf(refs') { assert PortRef(n, PortsOf(refs')[n]) in refs'; }
      }
    }
  }

  function Without(refs: seq<PortRef>, k: nat): seq<PortRef>
    requires k < |refs|
  {
    refs[..k] + refs[k + 1..]
  }

  lemma WithoutIsValid(refs: seq<PortRef>, k: nat)
    requires ValidRefs(refs) && k < |refs|
    ensures ValidRefs(Without(refs, k))
    ensures forall q :: q in Without(refs, k) <==> q in refs && q != refs[k]
  {
    var rest := Without(refs, k);
    forall i, j | 0 <= i < j < |rest| ensures rest[i].name != rest[j].name {
      assert rest[i] == refs[if i < k then i else i + 1] && rest[j] == refs[if j < k then j else j + 1];
    }
    forall q ensures q in rest <==> q in refs && q != refs[k] {
      if q in rest {
        var i :| 0 <= i < |rest| && rest[i] == q;
        assert q == refs[if i < k then i else i + 1];
      }
      if q in refs && q != refs[k] {
        var i :| 0 <= i < |refs| && refs[i] == q;
        assert q == rest[if i < k then i else i - 1];
      }
    }
  }

  /** The replacement of `r` commutes with that of any of these. */
  predicate CommutesWith(r: PortRef, refs: seq<PortRef>)
  {
    BraceFree(r.name) && forall q :: q in refs ==>
      BraceFree(q.name) && q.name != r.name && !Occurs(q.Text(), r.name) && !Occurs(r.Text(), q.name)
  }

  /** Any entry can go first. */
  lemma {:induction false} MoveToFront(value: string, before: seq<PortRef>, r: PortRef, rest: seq<PortRef>)
    requires CommutesWith(r, before)
    ensures Resolve(value, before + ([r] + rest)) == Resolve(value, [r] + (before + rest))
    decreases |before|
  {
    if before == [] {
      assert before + ([r] + rest) == [r] + rest && before + rest == rest;
    } else {
      var q, more := before[0], before[1..];
      assert before + ([r] + rest) == [q] + (more + ([r] + rest)) && before + rest == [q] + (more + rest);
      OneStep(value, q, more + ([r] + rest));
      MoveToFront(ReplaceAll(value, q.Key(), q.Text()), more, r, rest);
      OneStep(value, q, [r] + (more + rest));
      SwapTwo(value, q, r, more + rest);
    }
  }

  lemma OneStep(value: string, q: PortRef, rest: seq<PortRef>)
    ensures Resolve(value, [q] + rest) == Resolve(ReplaceAll(value, q.Key(), q.Text()), rest)
  {
    assert ([q] + rest)[1..] == rest;
  }

  lemma SwapTwo(value: string, q: PortRef, r: PortRef, rest: seq<PortRef>)
    requires BraceFree(q.name) && BraceFree(r.name) && q.name != r.name
    requires !Occurs(q.Text(), r.name) && !Occurs(r.Text(), q.name)
    ensures Resolve(value, [q] + ([r] + rest)) == Resolve(value, [r] + ([q] + rest))
  {
    Commute(value, q, r);
    TwoSteps(value, q, r, rest);
    TwoSteps(value, r, q, rest);
  }

  lemma TwoSteps(value: string, q: PortRef, r: PortRef, rest: seq<PortRef>)
    ensures Resolve(value, [q] + ([r] + rest)) ==
            Resolve(ReplaceAll(ReplaceAll(value, q.Key(), q.Text()), r.Key(), r.Text()), rest)
  {
    assert ([q] + ([r] + rest))[1..] == [r] + rest && ([r] + rest)[1..] == rest;
  }

  lemma OthersCommute(refs: seq<PortRef>, k: nat)
    requires ValidRefs(refs) && Independent(refs) && k < |refs|
    ensures CommutesWith(refs[k], refs[..k])
  {
    forall q | q in refs[..k] ensures q in refs && q.name != refs[k].name {
      var i :| 0 <= i < k && refs[i] == q;
    }
  }

  lemma Pull(value: string, refs: seq<PortRef>, k: nat)
    requires ValidRefs(refs) && Independent(refs) && k < |refs|
    ensures Resolve(value, refs) == Resolve(ReplaceAll(value, refs[k].Key(), refs[k].Text()), Without(refs, k))
  {
    assert refs == refs[..k] + ([refs[k]] + refs[k + 1..]);
    OthersCommute(refs, k);
    MoveToFront(value, refs[..k], refs[k], refs[k + 1..]);
    OneStep(value, refs[k], Without(refs, k));
  }

  lemma TailsAgree(refs: seq<PortRef>, refs': seq<PortRef>, k: nat)
    requires ValidRefs(refs) && ValidRefs(refs') && PortsOf(refs') == PortsOf(refs)
    requires refs != [] && k < |refs'| && refs'[k] == refs[0]
    ensures ValidRefs(refs[1..]) && ValidRefs(Without(refs', k)) && PortsOf(Without(refs', k)) == PortsOf(refs[1..])
  {
    SameEntries(refs, refs');
    TailIsValid(refs);
    WithoutIsValid(refs', k);
    assert refs == [refs[0]] + refs[1..];
    SameEntries(refs[1..], Without(refs', k));
  }

  lemma {:induction false} IndependentIsOrderFree(value: string, refs: seq<PortRef>, refs': seq<PortRef>)
    requires ValidRefs(refs) && ValidRefs(refs') && Independent(refs') && PortsOf(refs') == PortsOf(refs)
    ensures Resolve(value, refs') == Resolve(value, refs)
    decreases |refs|
  {
    assert refs' != [] ==> refs'[0] in refs';
    SameEntries(refs, refs');
    if refs != [] {
      assert refs[0] in refs;
      var k :| 0 <= k < |refs'| && refs'[k] == refs[0];
      Pull(value, refs', k);
      TailsAgree(refs, refs', k);
      WithoutIsValid(refs', k);
      IndependentIsOrderFree(ReplaceAll(value, refs[0].Key(), refs[0].Text()), refs[1..], Without(refs', k));
    }
  }

  // ---- a number in a name makes the order matter -----------------------------

  lemma {:induction false} OpensFirst(u: string, x: string)
    requires BraceFree(u) && x != [] && x[0] == '{'
    ensures !Closes(u + x)
  {
    if u == [] {
      assert u + x == x;
    } else {
      assert (u + x)[0] == u[0] && (u + x)[1..] == u[1..] + x;
      OpensFirst(u[1..], x);
    }
  }

  lemma {:induction false} ClosesFirst(n: string, rest: string)
    requires BraceFree(n)
    ensures Closes(n + "}" + rest)
  {
    if n != [] {
      assert (n + "}" + rest)[0] == n[0] && (n + "}" + rest)[1..] == n[1..] + "}" + rest;
      ClosesFirst(n[1..], rest);
    }
  }

  lemma NotAtHead(r: PortRef, v: string)
    requires BraceFree(r.name) && HEAD <= v && !Closes(v[|HEAD|..])
    ensures !(r.Key() <= v)
  {
    if r.Key() <= v {
      var tail := v[|r.Key()|..];
      assert v == r.Key() + tail;
      assert v[|HEAD|..] == r.name + "}" + tail;
      ClosesFirst(r.name, tail);
    }
  }

  lemma StepsOver(r: PortRef, c: char, u: string, x: string)
    requires '{' !in u && !(r.Key() <= [c] + (u + x))
    ensures ReplaceAll([c] + (u + x), r.Key(), r.Text()) == [c] + (u + ReplaceAll(x, r.Key(), r.Text()))
  {
    assert ([c] + (u + x))[1..] == u + x;
    ReplaceSkips(u, x, r);
  }

  lemma HeadStays(r: PortRef, u: string, x: string)
    requires BraceFree(r.name) && BraceFree(u) && x != [] && x[0] == '{'
    ensures ReplaceAll(HEAD + (u + x), r.Key(), r.Text()) == HEAD + (u + ReplaceAll(x, r.Key(), r.Text()))
  {
    assert (HEAD + (u + x))[|HEAD|..] == u + x;
    OpensFirst(u, x);
    NotAtHead(r, HEAD + (u + x));
    HeadSplits(u, x);
    StepsOver(r, '{', "port:" + u, x);
    HeadSplits(u, ReplaceAll(x, r.Key(), r.Text()));
  }

  lemma HeadSplits(u: string, x: string)
    ensures HEAD + (u + x) == ['{'] + (("port:" + u) + x)
  {
  }

  lemma BraceFreeParts(u: string, t: string, w: string)
    requires BraceFree(u + t + w)
    ensures BraceFree(u) && BraceFree(w)
  {
    var s := u + t + w;
    assert forall i :: 0 <= i < |u| ==> u[i] == s[i];
    assert forall i :: 0 <= i < |w| ==> w[i] == s[|u| + |t| + i];
  }

  /** The key of a name `u + number + w` with the placeholder of `r` for the number. */
  function Nested(r: PortRef, u: string, w: string): string { HEAD + (u + (r.Key() + (w + "}"))) }

  /** Replacing the inner placeholder makes the outer one. */
  lemma InnerFirst(q: PortRef, r: PortRef, u: string, w: string)
    requires BraceFree(q.name) && BraceFree(r.name) && q.name == u + r.Text() + w
    ensures ReplaceAll(Nested(r, u, w), r.Key(), r.Text()) == q.Key()
  {
    BraceFreeParts(u, r.Text(), w);
    HeadStays(r, u, r.Key() + (w + "}"));
    ReplaceItself(r, w + "}");
    assert q.Key() == HEAD + (u + (r.Text() + (w + "}")));
  }

  /** The outer one is not there before that. */
  lemma OuterFirst(q: PortRef, r: PortRef, u: string, w: string)
    requires BraceFree(q.name) && BraceFree(r.name) && q.name != r.name && BraceFree(u) && BraceFree(w)
    ensures ReplaceAll(Nested(r, u, w), q.Key(), q.Text()) == Nested(r, u, w)
  {
    var tail := w + "}";
    HeadStays(q, u, r.Key() + tail);
    OtherKeyStays(r, q, tail);
    PlainStays(q, tail);
  }

  lemma NestedTwoOrders(q: PortRef, r: PortRef, u: string, w: string, rest: seq<PortRef>)
    requires BraceFree(q.name) && BraceFree(r.name) && q.name != r.name && q.name == u + r.Text() + w
    ensures Resolve(Nested(r, u, w), [r] + ([q] + rest)) == Resolve(q.Text(), rest)
    ensures Resolve(Nested(r, u, w), [q] + ([r] + rest)) == Resolve(q.Key(), rest)
  {
    BraceFreeParts(u, r.Text(), w);
    InnerFirst(q, r, u, w);
    OuterFirst(q, r, u, w);
    TwoSteps(Nested(r, u, w), r, q, rest);
    TwoSteps(Nested(r, u, w), q, r, rest);
    ReplaceItself(q, "");
    assert q.Key() + "" == q.Key() && q.Text() + "" == q.Text();
  }

  lemma PlainStays(r: PortRef, w: string)
    requires '{' !in w
    ensures ReplaceAll(w, r.Key(), r.Text()) == w
  {
    ReplaceSkips(w, "", r);
    assert w + "" == w;
  }

  lemma {:induction false} KeyStays(q: PortRef, refs: seq<PortRef>)
    requires BraceFree(q.name) && forall r :: r in refs ==> BraceFree(r.name) && r.name != q.name
    ensures Resolve(q.Key(), refs) == q.Key()
    decreases |refs|
  {
    if refs != [] {
      OtherKeyStays(q, refs[0], "");
      assert q.Key() + "" == q.Key();
      KeyStays(q, refs[1..]);
    }
  }

  lemma {:induction false} TextStays(t: string, refs: seq<PortRef>)
    requires '{' !in t
    ensures Resolve(t, refs) == t
    decreases |refs|
  {
    if refs != [] {
      PlainStays(refs[0], t);
      TextStays(t, refs[1..]);
    }
  }

  /** Two orders of the map disagree on the nested key. */
  lemma NumberInNameMatters(refs: seq<PortRef>, q: PortRef, r: PortRef)
    returns (value: string, one: seq<PortRef>, other: seq<PortRef>)
    requires ValidRefs(refs) && q in refs && r in refs && q != r && Occurs(r.Text(), q.name)
    ensures ValidRefs(one) && ValidRefs(other) && PortsOf(one) == PortsOf(other) == PortsOf(refs)
    ensures Resolve(value, one) == q.Text() && Resolve(value, other) == q.Key()
  {
    var k :| 0 <= k < |refs| && refs[k] == q;
    var some := Without(refs, k);
    WithoutIsValid(refs, k);
    var l :| 0 <= l < |some| && some[l] == r;
    var rest := Without(some, l);
    WithoutIsValid(some, l);
    one, other := [r] + ([q] + rest), [q] + ([r] + rest);
    PairInFront(refs, q, r, rest);
    PairInFront(refs, r, q, rest);
    var u, w := OccursSplits(r.Text(), q.name);
    value := Nested(r, u, w);
    BraceFreeParts(u, r.Text(), w);
    NestedTwoOrders(q, r, u, w, rest);
    TextIsPlain(q);
    TextStays(q.Text(), rest);
    KeyStays(q, rest);
  }

  lemma PairInFront(refs: seq<PortRef>, q: PortRef, r: PortRef, rest: seq<PortRef>)
    requires ValidRefs(refs) && ValidRefs(rest) && q in refs && r in refs && q != r
    requires forall p :: p in rest <==> p in refs && p != q && p != r
    ensures ValidRefs([q] + ([r] + rest)) && PortsOf([q] + ([r] + rest)) == PortsOf(refs)
    ensures forall p :: p in rest ==> p.name != q.name && p.name != r.name
    ensures q.name != r.name
  {
    forall p, p' | p in refs && p' in refs && p != p' ensures p.name != p'.name {
      var i :| 0 <= i < |refs| && refs[i] == p;
      var j :| 0 <= j < |refs| && refs[j] == p';
      if i < j { assert refs[i].name != refs[j].name; } else { assert refs[j].name != refs[i].name; }
    }
    var all := [q] + ([r] + rest);
    forall i, j | 0 <= i < j < |all| ensures all[i].name != all[j].name {
      assert i >= 2 ==> all[i] == rest[i - 2];
      assert j >= 2 ==> all[j] == rest[j - 2] && rest[j - 2] in rest;
    }
    SameEntries(all, refs);
  }

  /** The exact condition: the iteration order of the map never matters, whatever the
      tag, exactly when no port number occurs in the name of another port. */
  lemma OrderFreeIff(refs: seq<PortRef>)
    requires ValidRefs(refs)
    ensures OrderFree(refs) <==> Independent(refs)
  {
    if Independent(refs) {
      forall value, refs' | ValidRefs(refs') && PortsOf(refs') == PortsOf(refs)
        ensures Resolve(value, refs') == Resolve(value, refs)
      {
        SameEntries(refs, refs');
        IndependentIsOrderFree(value, refs, refs');
      }
    } else {
      var q, r :| q in refs && r in refs && q != r && Occurs(r.Text(), q.name);
      var value, one, other := NumberInNameMatters(refs, q, r);
      assert Resolve(value, one) != Resolve(value, other) by {
        TextIsPlain(q);
        assert '{' in q.Key();
      }
      assert OrderFree(refs) ==> Resolve(value, one) == Resolve(value, refs) == Resolve(value, other);
    }
  }

  /** A nested key and two orders that disagree on it. */
  lemma NestedOrderMatters()
    ensures var a, five := PortRef("a", 5), PortRef("5", 7);
            var v := HEAD + a.Key() + "}";
            && ValidRefs([a, five]) && !NotNested(v)
            && Resolve(v, [a, five]) == "7"
            && Resolve(v, [five, a]) == five.Key()
  {
    var a, five := PortRef("a", 5), PortRef("5", 7);
    var v := HEAD + a.Key() + "}";
    assert v[|HEAD|..] == a.Key() + "}";
    assert v == Nested(a, "", "") && five.name == "" + a.Text() + "";
    NestedTwoOrders(five, a, "", "", []);
    assert [a] + ([five] + []) == [a, five] && [five] + ([a] + []) == [five, a];
  }
}
