/** Option values and the few operations of Go's `strings` and `strconv`
    packages that the program's identities and tags are built with. */
module Text {

  datatype Option<+T> = None | Some(value: T)

  lemma TakeOneMore<T>(s: seq<T>, i: nat)
    requires i < |s|
    ensures s[..i + 1] == s[..i] + [s[i]]
  {
  }

  /** `strings.Replace(s, "a", "b", -1)` for one-character arguments. */
  function ReplaceChar(s: string, a: char, b: char): (r: string)
    ensures |r| == |s|
    ensures forall i :: 0 <= i < |s| ==> r[i] == if s[i] == a then b else s[i]
  {
    seq(|s|, i requires 0 <= i < |s| => if s[i] == a then b else s[i])
  }

  /** `strings.LastIndex`, with the same -1 for "absent". */
  function LastIndexOf(s: string, c: char): (i: int)
    ensures -1 <= i < |s|
    ensures i < 0 ==> c !in s
    ensures i >= 0 ==> s[i] == c && c !in s[i + 1..]
  {
    if s == [] then -1
    else if s[|s| - 1] == c then |s| - 1
    else
      var i := LastIndexOf(s[..|s| - 1], c);
      assert i >= 0 ==> s[i + 1..] == s[..|s| - 1][i + 1..] + [s[|s| - 1]];
      assert s == s[..|s| - 1] + [s[|s| - 1]];
      i
  }

  lemma {:induction false} LastIndexIs(a: string, c: char, b: string)
    requires c !in b
    ensures LastIndexOf(a + [c] + b, c) == |a|
  {
    var s := a + [c] + b;
    if b != [] {
      assert s[..|s| - 1] == a + [c] + b[..|b| - 1];
      LastIndexIs(a, c, b[..|b| - 1]);
    }
  }

  /** A separator absent from both right-hand parts splits a string in one way. */
  lemma LastSplitUnique(a: string, b: string, a': string, b': string, c: char)
    requires a + [c] + b == a' + [c] + b'
    requires c !in b && c !in b'
    ensures a == a' && b == b'
  {
    var s := a + [c] + b;
    assert forall i :: |a| < i < |s| ==> s[i] == b[i - |a| - 1] && s[i] != c;
    assert forall i :: |a'| < i < |s| ==> s[i] == b'[i - |a'| - 1] && s[i] != c;
    assert s[|a|] == c && s[|a'|] == c;
    assert |a| == |a'|;
    assert a == s[..|a|] && b == s[|a| + 1..];
    assert a' == s[..|a|] && b' == s[|a| + 1..];
  }

  /** `strings.Split` for a one-character separator. */
  function Split(s: string, sep: char): (parts: seq<string>)
    ensures |parts| >= 1
  {
    if s == [] then [""]
    else
      var rest := Split(s[1..], sep);
      if s[0] == sep then [""] + rest else [[s[0]] + rest[0]] + rest[1..]
  }

  /** What `Split` means: the parts carry no separator, and joining them gives
      the string back. */
  lemma {:induction false} SplitJoins(s: string, sep: char)
    ensures Join(Split(s, sep), sep) == s
    ensures |Split(s, sep)| == 1 <==> sep !in s
  {
    if s != [] {
      SplitJoins(s[1..], sep);
      var rest := Split(s[1..], sep);
      assert s == [s[0]] + s[1..];
      if s[0] == sep {
        assert ([""] + rest)[1..] == rest;
      } else {
        JoinFront(s[0], rest, sep);
      }
    }
  }

  lemma JoinFront(c: char, parts: seq<string>, sep: char)
    requires |parts| >= 1
    ensures Join([[c] + parts[0]] + parts[1..], sep) == [c] + Join(parts, sep)
  {
    var front := [[c] + parts[0]] + parts[1..];
    assert front[0] == [c] + parts[0] && front[1..] == parts[1..];
  }

  lemma {:induction false} SplitPartsAreClean(s: string, sep: char)
    ensures forall i :: 0 <= i < |Split(s, sep)| ==> sep !in Split(s, sep)[i]
  {
    if s != [] {
      SplitPartsAreClean(s[1..], sep);
    }
  }

  function Join(parts: seq<string>, sep: char): string
    requires |parts| >= 1
  {
    if |parts| == 1 then parts[0] else parts[0] + [sep] + Join(parts[1..], sep)
  }

  /** `strings.Replace(s, old, new, -1)`: leftmost, non-overlapping. */
  function ReplaceAll(s: string, target: string, text: string): string
    requires target != []
    decreases |s|
  {
    if s == [] then []
    else if target <= s then text + ReplaceAll(s[|target|..], target, text)
    else [s[0]] + ReplaceAll(s[1..], target, text)
  }

  predicate IsDigit(c: char) { '0' <= c <= '9' }

  function Digits(n: nat): (r: string)
    ensures r != [] && forall c :: c in r ==> IsDigit(c)
  {
    var last := [('0' as int + n % 10) as char];
    if n < 10 then last else Digits(n / 10) + last
  }

  function Value(s: string): int
  {
    if s == [] then 0 else Value(s[..|s| - 1]) * 10 + (s[|s| - 1] as int - '0' as int)
  }

  lemma {:induction false} ValueOfDigits(n: nat)
    ensures Value(Digits(n)) == n
  {
    var r := Digits(n);
    if n >= 10 {
      ValueOfDigits(n / 10);
      assert r[..|r| - 1] == Digits(n / 10);
    }
  }

  /** `fmt.Sprint` of an int. */
  function Itoa(n: int): (r: string)
    ensures r != [] && (r[0] == '-' || IsDigit(r[0]))
    ensures r[0] == '-' ==> |r| >= 2
    ensures forall i :: 1 <= i < |r| ==> IsDigit(r[i])
  {
    if n < 0 then "-" + Digits(-n) else Digits(n)
  }

  lemma ItoaInjective(m: int, n: int)
    requires Itoa(m) == Itoa(n)
    ensures m == n
  {
    assert Itoa(m)[0] == Itoa(n)[0];
    assert m < 0 <==> n < 0 by {
      assert m >= 0 ==> Itoa(m)[0] in Digits(m);
      assert n >= 0 ==> Itoa(n)[0] in Digits(n);
    }
    if m < 0 {
      assert Itoa(m)[1..] == Digits(-m) && Itoa(n)[1..] == Digits(-n);
      ValueOfDigits(-m);
      ValueOfDigits(-n);
    } else {
      ValueOfDigits(m);
      ValueOfDigits(n);
    }
  }

  /** `strings.TrimSpace`, for the white space of the Latin-1 range. */
  predicate IsSpace(c: char) { c in {'\t', '\n', '\r', ' '} || c as int in {0x0B, 0x0C, 0x85, 0xA0} }

  function TrimSpace(s: string): string
    decreases |s|
  {
    if s == [] then s
    else if IsSpace(s[0]) then TrimSpace(s[1..])
    else if IsSpace(s[|s| - 1]) then TrimSpace(s[..|s| - 1])
    else s
  }

  /** `strings.Trim(s, "c")`. */
  function TrimChar(s: string, c: char): string
    decreases |s|
  {
    if s == [] then s
    else if s[0] == c then TrimChar(s[1..], c)
    else if s[|s| - 1] == c then TrimChar(s[..|s| - 1], c)
    else s
  }

  /** `strings.TrimSpace` takes away white space at both ends, as much as there is. */
  lemma {:induction false} TrimSpaceIs(s: string) returns (before: string, after: string)
    ensures s == before + TrimSpace(s) + after
    ensures forall c :: c in before + after ==> IsSpace(c)
    ensures TrimSpace(s) != [] ==> !IsSpace(TrimSpace(s)[0]) && !IsSpace(TrimSpace(s)[|TrimSpace(s)| - 1])
    decreases |s|
  {
    before, after := [], [];
    if s != [] && IsSpace(s[0]) {
      before, after := TrimSpaceIs(s[1..]);
      before := [s[0]] + before;
    } else if s != [] && IsSpace(s[|s| - 1]) {
      before, after := TrimSpaceIs(s[..|s| - 1]);
      after := after + [s[|s| - 1]];
    }
  }

  predicate Only(s: string, c: char) { forall i :: 0 <= i < |s| ==> s[i] == c }

  /** `strings.Trim` takes away the character at both ends, as often as it is there. */
  lemma {:induction false} TrimCharIs(s: string, c: char) returns (before: string, after: string)
    ensures s == before + TrimChar(s, c) + after && Only(before, c) && Only(after, c)
    ensures TrimChar(s, c) != [] ==> TrimChar(s, c)[0] != c && TrimChar(s, c)[|TrimChar(s, c)| - 1] != c
    decreases |s|
  {
    before, after := [], [];
    if s != [] && s[0] == c {
      before, after := TrimCharIs(s[1..], c);
      assert s == [c] + s[1..];
      before := [c] + before;
    } else if s != [] && s[|s| - 1] == c {
      before, after := TrimCharIs(s[..|s| - 1], c);
      assert s == s[..|s| - 1] + [c];
      after := after + [c];
    }
  }

  function JoinText(parts: seq<string>, glue: string): string
    requires |parts| >= 1
  {
    if |parts| == 1 then parts[0] else parts[0] + glue + JoinText(parts[1..], glue)
  }

  lemma JoinTextFront(c: char, parts: seq<string>, glue: string)
    requires |parts| >= 1
    ensures JoinText([[c] + parts[0]] + parts[1..], glue) == [c] + JoinText(parts, glue)
  {
    var front := [[c] + parts[0]] + parts[1..];
    assert front[0] == [c] + parts[0] && front[1..] == parts[1..];
  }

  /** Replacing a character by a text joins the parts between by that text. */
  lemma {:induction false} ReplaceJoins(s: string, sep: char, glue: string)
    ensures ReplaceAll(s, [sep], glue) == JoinText(Split(s, sep), glue)
  {
    if s != [] {
      ReplaceJoins(s[1..], sep, glue);
      var rest := Split(s[1..], sep);
      if s[0] == sep {
        assert [sep] <= s;
        assert ([""] + rest)[1..] == rest && "" + glue == glue;
      } else {
        assert !([sep] <= s);
        JoinTextFront(s[0], rest, glue);
      }
    }
  }
}
