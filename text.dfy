/** Python string primitives the rest of the model is built from: substring
    search (`in`, `str.find`, `str.rfind`), `str.split(sep, 1)`,
    `str.split("\n")`, `str.join`, `str.strip()`, `str(int)` and list slicing
    with possibly negative bounds. */
module Text {
  import opened Wrappers

  // ---------------------------------------------------------------------------
  // Substring search
  // ---------------------------------------------------------------------------

  /** `sub` occurs in `s` starting at index `i`. */
  predicate OccursAt(s: string, sub: string, i: nat) {
    i + |sub| <= |s| && s[i..i + |sub|] == sub
  }

  /** Python's `sub in s`. */
  predicate Contains(s: string, sub: string) {
    exists i: nat | i <= |s| :: OccursAt(s, sub, i)
  }

  /** The first occurrence of `sub` in `s` at or after index `i`. */
  function IndexFrom(s: string, sub: string, i: nat): (r: Option<nat>)
    requires i <= |s|
    ensures r.Some? ==> i <= r.value && OccursAt(s, sub, r.value)
    ensures r.Some? ==> forall j: nat :: i <= j < r.value ==> !OccursAt(s, sub, j)
    ensures r.None? ==> forall j: nat :: i <= j ==> !OccursAt(s, sub, j)
    decreases |s| - i
  {
    if i + |sub| > |s| then None
    else if OccursAt(s, sub, i) then Some(i)
    else IndexFrom(s, sub, i + 1)
  }

  /** Python's `s.find(sub)`, with `None` for -1. */
  function IndexOf(s: string, sub: string): (r: Option<nat>)
    ensures r.None? <==> !Contains(s, sub)
    ensures r.Some? ==> OccursAt(s, sub, r.value)
    ensures r.Some? ==> forall j: nat :: j < r.value ==> !OccursAt(s, sub, j)
  {
    IndexFrom(s, sub, 0)
  }

  /** The last occurrence of `sub` in `s` starting at or below index `i`. */
  function LastAtOrBelow(s: string, sub: string, i: int): (r: Option<nat>)
    ensures r.Some? ==> r.value <= i && OccursAt(s, sub, r.value)
    ensures r.Some? ==> forall j: nat :: r.value < j <= i ==> !OccursAt(s, sub, j)
    ensures r.None? ==> forall j: nat :: j <= i ==> !OccursAt(s, sub, j)
    decreases i + 1
  {
    if i < 0 then None
    else if OccursAt(s, sub, i) then Some(i)
    else LastAtOrBelow(s, sub, i - 1)
  }

  /** Python's `s.rfind(sub)`, with `None` for -1. */
  function LastIndexOf(s: string, sub: string): (r: Option<nat>)
    ensures r.None? <==> !Contains(s, sub)
    ensures r.Some? ==> OccursAt(s, sub, r.value)
    ensures r.Some? ==> forall j: nat :: r.value < j ==> !OccursAt(s, sub, j)
  {
    LastAtOrBelow(s, sub, |s| - |sub|)
  }

  /** Python's `s.split(sep, 1)`: `None` when `sep` does not occur (the
      one-element list), otherwise the text before and after the first
      occurrence. Python refuses an empty separator. */
  function SplitOnce(s: string, sep: string): (r: Option<(string, string)>)
    requires sep != ""
    ensures r.None? <==> !Contains(s, sep)
    ensures r.Some? ==> s == r.value.0 + sep + r.value.1
    ensures r.Some? ==> forall j: nat :: j < |r.value.0| ==> !OccursAt(s, sep, j)
  {
    match IndexOf(s, sep)
    case None => None
    case Some(i) =>
      assert s == s[..i] + sep + s[i + |sep|..];
      Some((s[..i], s[i + |sep|..]))
  }

  /** `s.split(sep, 1)[0]`: the text before the first `sep`, or all of `s`. */
  function CutAt(s: string, sep: string): (r: string)
    requires sep != ""
    ensures !Contains(s, sep) ==> r == s
    ensures Contains(s, sep) ==> |r| + |sep| <= |s| && s == r + sep + s[|r| + |sep|..]
    ensures forall j: nat :: j < |r| ==> !OccursAt(s, sep, j)
  {
    match SplitOnce(s, sep)
    case None => s
    case Some((head, _)) => head
  }

  /** Splitting at an occurrence of `sep` that nothing before it overlaps
      gives back the two sides. */
  lemma SplitOnceAt(p: string, sep: string, rest: string)
    requires sep != ""
    requires forall j: nat :: j < |p| ==> !OccursAt(p + sep + rest, sep, j)
    ensures SplitOnce(p + sep + rest, sep) == Some((p, rest))
  {
    var s := p + sep + rest;
    assert OccursAt(s, sep, |p|) by { assert s[|p|..|p| + |sep|] == sep; }
    var r := SplitOnce(s, sep);
    assert r.Some?;
    var h := r.value.0;
    if |h| < |p| {
      assert OccursAt(s, sep, |h|) by { assert s[|h|..|h| + |sep|] == sep; }
    }
    assert h == s[..|p|] == p;
    assert r.value.1 == s[|p| + |sep|..] == rest;
  }

  /** Splitting at a one-character separator that the head does not hold
      gives back the head and the rest. */
  lemma SplitOnceAtChar(p: string, c: char, rest: string)
    requires c !in p
    ensures SplitOnce(p + [c] + rest, [c]) == Some((p, rest))
  {
    var s := p + [c] + rest;
    forall j: nat | j < |p|
      ensures !OccursAt(s, [c], j)
    {
      assert s[j..j + 1][0] == s[j] == p[j];
    }
    SplitOnceAt(p, [c], rest);
  }

  // ---------------------------------------------------------------------------
  // Lines: Python's str.split("\n") and str.join
  // ---------------------------------------------------------------------------

  /** Python's `s.split("\n")`: never empty, one more piece than newlines. */
  function Lines(s: string): (r: seq<string>)
    ensures |r| >= 1
  {
    if s == [] then [[]]
    else
      var rest := Lines(s[1..]);
      if s[0] == '\n' then [[]] + rest else [[s[0]] + rest[0]] + rest[1..]
  }

  /** Python's `sep.join(parts)`. */
  function Join(parts: seq<string>, sep: string): string {
    if |parts| == 0 then ""
    else if |parts| == 1 then parts[0]
    else parts[0] + sep + Join(parts[1..], sep)
  }

  /** Python's `"".join(parts)`. */
  function Concat(parts: seq<string>): string {
    if parts == [] then "" else parts[0] + Concat(parts[1..])
  }

  /** `s` with every newline replaced by `repl`. */
  function ReplaceNewlines(s: string, repl: string): string {
    if s == [] then []
    else (if s[0] == '\n' then repl else [s[0]]) + ReplaceNewlines(s[1..], repl)
  }

  /** Every piece of `parts` with `prefix` in front of it. */
  function Prefixed(prefix: string, parts: seq<string>): (r: seq<string>)
    ensures |r| == |parts|
    ensures forall i :: 0 <= i < |parts| ==> r[i] == prefix + parts[i]
  {
    if parts == [] then [] else [prefix + parts[0]] + Prefixed(prefix, parts[1..])
  }

  /** Joining the lines of `s` with `repl` replaces each newline of `s` by `repl`. */
  lemma {:induction false} JoinLines(s: string, repl: string)
    ensures Join(Lines(s), repl) == ReplaceNewlines(s, repl)
    decreases |s|
  {
    if s != [] {
      var rest := Lines(s[1..]);
      JoinLines(s[1..], repl);
      assert ReplaceNewlines(s, repl)
        == (if s[0] == '\n' then repl else [s[0]]) + ReplaceNewlines(s[1..], repl);
      if s[0] == '\n' {
        var ls := [[]] + rest;
        assert Lines(s) == ls;
        assert ls[1..] == rest;
        assert Join(ls, repl) == ls[0] + repl + Join(ls[1..], repl);
      } else if |rest| == 1 {
        assert Lines(s) == [[s[0]] + rest[0]];
        assert Join(rest, repl) == rest[0];
      } else {
        var ls := [[s[0]] + rest[0]] + rest[1..];
        assert Lines(s) == ls;
        assert ls[1..] == rest[1..];
        assert Join(ls, repl) == ls[0] + repl + Join(ls[1..], repl);
        assert Join(rest, repl) == rest[0] + repl + Join(rest[1..], repl);
      }
    }
  }

  /** Replacing newlines by a newline changes nothing. */
  lemma {:induction false} ReplaceNewlinesIdentity(s: string)
    ensures ReplaceNewlines(s, "\n") == s
    decreases |s|
  {
    if s != [] {
      ReplaceNewlinesIdentity(s[1..]);
      assert s == [s[0]] + s[1..];
    }
  }

  /** Python's `"\n".join(s.split("\n")) == s`. */
  lemma JoinLinesIdentity(s: string)
    ensures Join(Lines(s), "\n") == s
  {
    JoinLines(s, "\n");
    ReplaceNewlinesIdentity(s);
  }

  /** Replacement distributes over concatenation. */
  lemma {:induction false} ReplaceNewlinesConcat(a: string, b: string, repl: string)
    ensures ReplaceNewlines(a + b, repl) == ReplaceNewlines(a, repl) + ReplaceNewlines(b, repl)
    decreases |a|
  {
    if a == [] {
      assert a + b == b;
    } else {
      assert (a + b)[0] == a[0];
      assert (a + b)[1..] == a[1..] + b;
      ReplaceNewlinesConcat(a[1..], b, repl);
    }
  }

  /** Text without newlines is left alone. */
  lemma {:induction false} ReplaceNewlinesPlain(s: string, repl: string)
    requires '\n' !in s
    ensures ReplaceNewlines(s, repl) == s
    decreases |s|
  {
    if s != [] {
      ReplaceNewlinesPlain(s[1..], repl);
      assert s == [s[0]] + s[1..];
    }
  }

  /** No line contains a newline. */
  lemma {:induction false} LinesHaveNoNewline(s: string)
    ensures forall i :: 0 <= i < |Lines(s)| ==> '\n' !in Lines(s)[i]
    decreases |s|
  {
    if s != [] {
      LinesHaveNoNewline(s[1..]);
    }
  }

  /** Text without newlines is a single line. */
  lemma {:induction false} LinesPlain(s: string)
    requires '\n' !in s
    ensures Lines(s) == [s]
    decreases |s|
  {
    if s != [] {
      LinesPlain(s[1..]);
      assert s == [s[0]] + s[1..];
    }
  }

  /** Splitting at a newline splits the list of lines. */
  lemma {:induction false} LinesConcat(a: string, b: string)
    ensures Lines(a + "\n" + b) == Lines(a) + Lines(b)
    decreases |a|
  {
    var x := a + "\n" + b;
    if a == [] {
      assert x == "\n" + b && x[1..] == b;
      LinesStep(x);
    } else {
      assert x[0] == a[0] && x[1..] == a[1..] + "\n" + b;
      LinesConcat(a[1..], b);
      LinesStep(x);
      LinesStep(a);
      LinesConsAppend(a[0], Lines(a[1..]), Lines(b));
    }
  }

  /** The list algebra behind `LinesConcat`: extending the first line, or
      starting a new one, commutes with appending further lines. */
  lemma LinesConsAppend(c: char, ra: seq<string>, lb: seq<string>)
    requires |ra| >= 1
    ensures [[c] + (ra + lb)[0]] + (ra + lb)[1..] == ([[c] + ra[0]] + ra[1..]) + lb
    ensures [[]] + (ra + lb) == ([[]] + ra) + lb
  {
    assert (ra + lb)[1..] == ra[1..] + lb;
  }

  /** One step of `split("\n")`: a leading newline starts a new line, any
      other leading character joins the first line. */
  lemma LinesStep(s: string)
    requires s != []
    ensures s[0] == '\n' ==> Lines(s) == [[]] + Lines(s[1..])
    ensures s[0] != '\n' ==> Lines(s) == [[s[0]] + Lines(s[1..])[0]] + Lines(s[1..])[1..]
  {
  }

  /** The number of lines is one more than the number of newlines. */
  lemma {:induction false} LinesCount(s: string)
    ensures |Lines(s)| == multiset(s)['\n'] + 1
    decreases |s|
  {
    if s != [] {
      LinesCount(s[1..]);
      assert s == [s[0]] + s[1..];
    }
  }

  /** Splitting newline-free lines joined by newlines gives them back. */
  lemma {:induction false} LinesOfJoin(parts: seq<string>)
    requires |parts| >= 1
    requires forall i :: 0 <= i < |parts| ==> '\n' !in parts[i]
    ensures Lines(Join(parts, "\n")) == parts
    decreases |parts|
  {
    if |parts| == 1 {
      LinesPlain(parts[0]);
    } else {
      LinesOfJoin(parts[1..]);
      LinesPlain(parts[0]);
      LinesConcat(parts[0], Join(parts[1..], "\n"));
      assert [parts[0]] + parts[1..] == parts;
    }
  }

  /** Prefixing every piece and joining with newlines is the same as
      prefixing once and joining with newline-plus-prefix. */
  lemma {:induction false} JoinPrefixed(prefix: string, parts: seq<string>)
    requires |parts| >= 1
    ensures Join(Prefixed(prefix, parts), "\n") == prefix + Join(parts, "\n" + prefix)
    decreases |parts|
  {
    if |parts| > 1 {
      JoinPrefixed(prefix, parts[1..]);
      assert Prefixed(prefix, parts)[1..] == Prefixed(prefix, parts[1..]);
    }
  }

  /** Text placed between two strings is contained in the result. */
  lemma ContainsMiddle(a: string, w: string, b: string)
    ensures Contains(a + w + b, w)
  {
    assert (a + w + b)[|a|..|a| + |w|] == w;
    assert OccursAt(a + w + b, w, |a|);
  }

  /** A newline-free fragment of `x` survives the replacement of newlines. */
  lemma ContainsReplaced(x: string, w: string, repl: string)
    requires Contains(x, w)
    requires '\n' !in w
    ensures Contains(ReplaceNewlines(x, repl), w)
  {
    var i: nat :| i <= |x| && OccursAt(x, w, i);
    assert i + |w| <= |x| && x[i..i + |w|] == w;
    var a, b := x[..i], x[i + |w|..];
    assert x == a + (w + b);
    ReplaceNewlinesConcat(a, w + b, repl);
    ReplaceNewlinesConcat(w, b, repl);
    ReplaceNewlinesPlain(w, repl);
    assert ReplaceNewlines(x, repl) == ReplaceNewlines(a, repl) + w + ReplaceNewlines(b, repl);
    ContainsMiddle(ReplaceNewlines(a, repl), w, ReplaceNewlines(b, repl));
  }

  /** Containment is transitive. */
  lemma ContainsTrans(x: string, y: string, w: string)
    requires Contains(x, y) && Contains(y, w)
    ensures Contains(x, w)
  {
    var i: nat :| i <= |x| && OccursAt(x, y, i);
    var j: nat :| j <= |y| && OccursAt(y, w, j);
    assert i + |y| <= |x| && j + |w| <= |y|;
    assert x[i..i + |y|] == y;
    forall k | 0 <= k < |w| ensures x[i + j + k] == w[k] {
      assert x[i + (j + k)] == x[i..i + |y|][j + k] == y[j + k] == y[j..j + |w|][k];
    }
    assert x[i + j..i + j + |w|] == w;
    assert OccursAt(x, w, i + j);
  }

  /** Every piece of a join is contained in it. */
  lemma {:induction false} JoinContainsPart(parts: seq<string>, sep: string, k: nat)
    requires k < |parts|
    ensures Contains(Join(parts, sep), parts[k])
    decreases |parts|
  {
    if |parts| == 1 {
      ContainsMiddle("", parts[0], "");
      assert "" + parts[0] + "" == parts[0];
    } else if k == 0 {
      ContainsMiddle("", parts[0], sep + Join(parts[1..], sep));
      assert Join(parts, sep) == "" + parts[0] + (sep + Join(parts[1..], sep));
    } else {
      JoinContainsPart(parts[1..], sep, k - 1);
      ContainsMiddle(parts[0] + sep, Join(parts[1..], sep), "");
      assert Join(parts, sep) == (parts[0] + sep) + Join(parts[1..], sep) + "";
      ContainsTrans(Join(parts, sep), Join(parts[1..], sep), parts[k]);
    }
  }

  // ---------------------------------------------------------------------------
  // Whitespace: Python's str.strip()
  // ---------------------------------------------------------------------------

  /** Python's `str.isspace()` for one character. */
  predicate IsSpace(c: char) {
    c == ' ' || c == '\t' || c == '\n' || c == '\r' || c == '\U{0B}' || c == '\U{0C}'
    || ('\U{1C}' <= c <= '\U{1F}') || c == '\U{85}' || c == '\U{A0}' || c == '\U{1680}'
    || ('\U{2000}' <= c <= '\U{200A}') || c == '\U{2028}' || c == '\U{2029}'
    || c == '\U{202F}' || c == '\U{205F}' || c == '\U{3000}'
  }

  /** Python's `s.lstrip()`. */
  function StripStart(s: string): (r: string)
    ensures |r| <= |s| && r == s[|s| - |r|..]
    ensures r == [] || !IsSpace(r[0])
    ensures forall i :: 0 <= i < |s| - |r| ==> IsSpace(s[i])
  {
    if s != [] && IsSpace(s[0]) then StripStart(s[1..]) else s
  }

  /** Python's `s.rstrip()`. */
  function StripEnd(s: string): (r: string)
    ensures |r| <= |s| && r == s[..|r|]
    ensures r == [] || !IsSpace(r[|r| - 1])
    ensures forall i :: |r| <= i < |s| ==> IsSpace(s[i])
  {
    if s != [] && IsSpace(s[|s| - 1]) then StripEnd(s[..|s| - 1]) else s
  }

  /** Python's `s.strip()`. */
  function Strip(s: string): string {
    StripEnd(StripStart(s))
  }

  /** Trailing whitespace does not change the stripped text. */
  lemma {:induction false} StripEndSpace(s: string, c: char)
    requires IsSpace(c)
    ensures StripEnd(s + [c]) == StripEnd(s)
  {
    assert (s + [c])[..|s + [c]| - 1] == s;
  }

  /** Appended text survives a strip of the start that stops early. */
  lemma {:induction false} StripStartAppend(s: string, t: string)
    requires StripStart(s) != []
    ensures StripStart(s + t) == StripStart(s) + t
    decreases |s|
  {
    var st := s + t;
    assert st[0] == s[0] && st[1..] == s[1..] + t;
    if IsSpace(s[0]) {
      StripStartAppend(s[1..], t);
      StripStartStep(s);
      StripStartStep(st);
    } else {
      StripStartStep(s);
      StripStartStep(st);
    }
  }

  /** One step of `lstrip`: a leading space is dropped, any other leading
      character ends the strip. */
  lemma StripStartStep(s: string)
    requires s != []
    ensures IsSpace(s[0]) ==> StripStart(s) == StripStart(s[1..])
    ensures !IsSpace(s[0]) ==> StripStart(s) == s
  {
  }

  /** An all-space text stays all-space when a space is appended. */
  lemma {:induction false} StripStartAllSpace(s: string, c: char)
    requires StripStart(s) == [] && IsSpace(c)
    ensures StripStart(s + [c]) == []
    decreases |s|
  {
    if s == [] {
      assert s + [c] == [c];
      assert [c][1..] == [];
    } else {
      assert (s + [c])[1..] == s[1..] + [c];
      StripStartAllSpace(s[1..], c);
    }
  }

  /** `(t + "\n").strip() == t.strip()`. */
  lemma StripTrailingNewline(t: string)
    ensures Strip(t + "\n") == Strip(t)
  {
    if StripStart(t) == [] {
      StripStartAllSpace(t, '\n');
    } else {
      StripStartAppend(t, "\n");
      StripEndSpace(StripStart(t), '\n');
    }
  }

  /** A text that neither starts nor ends with whitespace is already stripped. */
  lemma StripUnpadded(s: string)
    requires s != [] && !IsSpace(s[0]) && !IsSpace(s[|s| - 1])
    ensures Strip(s) == s
  {
    StripStartStep(s);
  }

  /** Stripping twice is stripping once. */
  lemma StripIdempotent(s: string)
    ensures Strip(Strip(s)) == Strip(s)
  {
    var u := StripStart(s);
    var v := StripEnd(u);
    if v != [] {
      assert v[0] == u[0];
    }
    assert StripStart(v) == v;
  }

  /** A newline-free prefix joins the first line. */
  lemma {:induction false} LinesPrepend(p: string, x: string)
    requires '\n' !in p
    ensures Lines(p + x) == [p + Lines(x)[0]] + Lines(x)[1..]
    decreases |p|
  {
    if p == [] {
      assert p + x == x;
      assert p + Lines(x)[0] == Lines(x)[0];
      assert Lines(x) == [Lines(x)[0]] + Lines(x)[1..];
    } else {
      assert (p + x)[0] == p[0] && (p + x)[1..] == p[1..] + x;
      LinesPrepend(p[1..], x);
      var rest := Lines(p[1..] + x);
      assert rest[0] == p[1..] + Lines(x)[0] && rest[1..] == Lines(x)[1..];
      assert p + Lines(x)[0] == [p[0]] + (p[1..] + Lines(x)[0]);
    }
  }

  // ---------------------------------------------------------------------------
  // Numbers and characters
  // ---------------------------------------------------------------------------

  /** The decimal digit for `d`. */
  function Digit(d: nat): (c: char)
    requires d < 10
    ensures '0' <= c <= '9'
  {
    ['0', '1', '2', '3', '4', '5', '6', '7', '8', '9'][d]
  }

  /** Python's `str(n)` for a non-negative integer. */
  function NatToString(n: nat): (r: string)
    ensures |r| >= 1
    ensures forall i :: 0 <= i < |r| ==> '0' <= r[i] <= '9'
  {
    if n < 10 then [Digit(n)] else NatToString(n / 10) + [Digit(n % 10)]
  }

  /** Python's `str(i)` for any integer. */
  function IntToString(i: int): (r: string)
    ensures |r| >= 1 && '\n' !in r
  {
    if i < 0 then "-" + NatToString(-i) else NatToString(i)
  }

  /** A character of the regular-expression class `[a-zA-Z]`. */
  predicate IsAsciiLetter(c: char) {
    'a' <= c <= 'z' || 'A' <= c <= 'Z'
  }

  /** Python's `str.upper()` restricted to ASCII letters. */
  function Upper(s: string): (r: string)
    ensures |r| == |s|
    ensures forall i :: 0 <= i < |s| ==> (r[i] == '\n' <==> s[i] == '\n')
  {
    if s == [] then []
    else [if 'a' <= s[0] <= 'z' then (s[0] as int - 32) as char else s[0]] + Upper(s[1..])
  }

  // ---------------------------------------------------------------------------
  // Python list slicing with a possibly negative bound
  // ---------------------------------------------------------------------------

  /** The index Python uses for the slice bound `k` on a list of length `n`. */
  function SliceBound(n: nat, k: int): (b: nat)
    ensures b <= n
    ensures 0 <= k <= n ==> b == k
  {
    if k >= 0 then (if k <= n then k else n)
    else if n + k >= 0 then n + k else 0
  }

  /** Python's `xs[:k]`. */
  function TakePy<T>(xs: seq<T>, k: int): seq<T> {
    xs[..SliceBound(|xs|, k)]
  }

  /** Python's `xs[k:]`. */
  function DropPy<T>(xs: seq<T>, k: int): seq<T> {
    xs[SliceBound(|xs|, k)..]
  }
}
