/**
  String helpers with the semantics of the Python built-ins the bot relies on:
  `str.split(sep)` with a one-character separator, the matching `sep.join`,
  `str.strip()` with no argument, `in` on substrings and `str.startswith`.
*/
module Text {

  /** The characters for which Python's `str.isspace()` holds; `str.strip()` removes these. */
  predicate IsSpace(c: char)
  {
    c == ' ' || ('\t' <= c <= '\r') || ('\U{1C}' <= c <= '\U{1F}') ||
    c == '\U{85}' || c == '\U{A0}' || c == '\U{1680}' ||
    ('\U{2000}' <= c <= '\U{200A}') || c == '\U{2028}' || c == '\U{2029}' ||
    c == '\U{202F}' || c == '\U{205F}' || c == '\U{3000}'
  }

  /** Number of occurrences of `d` in `s`. */
  function CountOf(s: string, d: char): (n: nat)
    ensures n == 0 <==> d !in s
    ensures n <= |s|
  {
    if s == [] then 0 else (if s[0] == d then 1 else 0) + CountOf(s[1..], d)
  }

  lemma {:induction false} CountOfAppend(a: string, b: string, d: char)
    ensures CountOf(a + b, d) == CountOf(a, d) + CountOf(b, d)
  {
    if a == [] {
      assert a + b == b;
    } else {
      assert (a + b)[1..] == a[1..] + b;
      CountOfAppend(a[1..], b, d);
    }
  }

  /** Python's `s.split(d)`: the maximal `d`-free pieces between occurrences of `d`. */
  function Split(s: string, d: char): (parts: seq<string>)
    ensures |parts| >= 1
    decreases |s|
  {
    if s == [] then [[]]
    else
      var rest := Split(s[1..], d);
      if s[0] == d then [[]] + rest
      else [[s[0]] + rest[0]] + rest[1..]
  }

  /** A split has one more piece than `s` has separators, and no piece holds one. */
  lemma {:induction false} SplitShape(s: string, d: char)
    ensures |Split(s, d)| == CountOf(s, d) + 1
    ensures forall i :: 0 <= i < |Split(s, d)| ==> d !in Split(s, d)[i]
    decreases |s|
  {
    if s != [] {
      SplitShape(s[1..], d);
      var rest := Split(s[1..], d);
      if s[0] != d {
        assert Split(s, d)[0] == [s[0]] + rest[0];
        assert forall i :: 1 <= i < |Split(s, d)| ==> Split(s, d)[i] == rest[i];
      } else {
        assert forall i :: 1 <= i < |Split(s, d)| ==> Split(s, d)[i] == rest[i - 1];
      }
    }
  }

  /** Python's `d.join(parts)`. */
  function Join(parts: seq<string>, d: char): string
    decreases |parts|
  {
    if parts == [] then []
    else if |parts| == 1 then parts[0]
    else parts[0] + [d] + Join(parts[1..], d)
  }

  /** Joining the pieces of a split gives back the original string. */
  lemma {:induction false} JoinSplit(s: string, d: char)
    ensures Join(Split(s, d), d) == s
    decreases |s|
  {
    if s != [] {
      JoinSplit(s[1..], d);
      if s[0] == d {
        JoinSplitAtSeparator(s, d);
      } else {
        JoinSplitAtOther(s, d);
      }
    }
  }

  lemma JoinSplitAtSeparator(s: string, d: char)
    requires s != [] && s[0] == d
    requires Join(Split(s[1..], d), d) == s[1..]
    ensures Join(Split(s, d), d) == s
  {
    var rest := Split(s[1..], d);
    assert Split(s, d) == [[]] + rest;
    JoinHead([], rest, d);
    assert s == [d] + s[1..];
  }

  lemma JoinSplitAtOther(s: string, d: char)
    requires s != [] && s[0] != d
    requires Join(Split(s[1..], d), d) == s[1..]
    ensures Join(Split(s, d), d) == s
  {
    var rest := Split(s[1..], d);
    var first := [s[0]] + rest[0];
    assert Split(s, d) == [first] + rest[1..];
    assert s == [s[0]] + s[1..];
    if |rest| == 1 {
      assert [first] + rest[1..] == [first];
    } else {
      JoinHead(first, rest[1..], d);
      assert rest == [rest[0]] + rest[1..];
      JoinHead(rest[0], rest[1..], d);
    }
  }

  lemma JoinHead(p: string, rest: seq<string>, d: char)
    requires rest != []
    ensures Join([p] + rest, d) == p + [d] + Join(rest, d)
  {
    assert ([p] + rest)[1..] == rest;
  }

  /** Splitting `p + t` when `p` is free of `d`: `p` is glued to the first piece of `t`. */
  lemma {:induction false} SplitPrefix(p: string, t: string, d: char)
    requires d !in p
    ensures Split(p + t, d) == [p + Split(t, d)[0]] + Split(t, d)[1..]
    decreases |p|
  {
    var st := Split(t, d);
    if p == [] {
      assert p + t == t;
      assert p + st[0] == st[0];
      assert st == [st[0]] + st[1..];
    } else {
      var tail := p[1..] + t;
      assert (p + t)[1..] == tail;
      var rest := Split(tail, d);
      assert Split(p + t, d) == [[p[0]] + rest[0]] + rest[1..];
      SplitPrefix(p[1..], t, d);
      assert rest[0] == p[1..] + st[0];
      assert rest[1..] == st[1..];
      assert [p[0]] + (p[1..] + st[0]) == p + st[0];
    }
  }

  lemma SplitWhole(p: string, d: char)
    requires d !in p
    ensures Split(p, d) == [p]
  {
    SplitPrefix(p, [], d);
    assert p + [] == p;
  }

  /** Splitting a join of `d`-free pieces gives back exactly those pieces. */
  lemma {:induction false} SplitJoin(parts: seq<string>, d: char)
    requires |parts| >= 1
    requires forall i :: 0 <= i < |parts| ==> d !in parts[i]
    ensures Split(Join(parts, d), d) == parts
    decreases |parts|
  {
    if |parts| == 1 {
      SplitWhole(parts[0], d);
    } else {
      var rest := parts[1..];
      var joined := Join(rest, d);
      SplitJoin(rest, d);
      var t := [d] + joined;
      assert t[1..] == joined;
      var st := Split(t, d);
      assert st == [[]] + Split(joined, d);
      assert st[0] == [] && st[1..] == rest;
      assert Join(parts, d) == parts[0] + [d] + joined;
      assert Join(parts, d) == parts[0] + t;
      SplitPrefix(parts[0], t, d);
      assert parts[0] + st[0] == parts[0];
      assert parts == [parts[0]] + rest;
    }
  }

  /** Python's `sub in s` for a two-character `sub`. */
  predicate ContainsPair(s: string, a: char, b: char)
  {
    exists i :: 0 <= i < |s| - 1 && s[i] == a && s[i + 1] == b
  }

  /** Python's `s.startswith(prefix)`. */
  predicate StartsWith(s: string, prefix: string)
  {
    |prefix| <= |s| && s[..|prefix|] == prefix
  }

  /** `s` without its leading whitespace. */
  function TrimLeft(s: string): string
    decreases |s|
  {
    if s != [] && IsSpace(s[0]) then TrimLeft(s[1..]) else s
  }

  /** `s` without its trailing whitespace. */
  function TrimRight(s: string): string
    decreases |s|
  {
    if s != [] && IsSpace(s[|s| - 1]) then TrimRight(s[..|s| - 1]) else s
  }

  /** Python's `s.strip()`: `s` without its leading and trailing whitespace. */
  function Strip(s: string): string
  {
    TrimRight(TrimLeft(s))
  }

  /** Where `Strip(s)` begins inside `s`. */
  function StripStart(s: string): int
  {
    |s| - |TrimLeft(s)|
  }

  lemma {:induction false} TrimLeftShape(s: string)
    ensures var r := TrimLeft(s);
      && (r == [] || !IsSpace(r[0]))
      && |r| <= |s| && r == s[|s| - |r|..]
      && forall i :: 0 <= i < |s| - |r| ==> IsSpace(s[i])
    decreases |s|
  {
    if s != [] && IsSpace(s[0]) {
      TrimLeftShape(s[1..]);
    }
  }

  lemma {:induction false} TrimRightShape(s: string)
    ensures var r := TrimRight(s);
      && (r == [] || !IsSpace(r[|r| - 1]))
      && |r| <= |s| && r == s[..|r|]
      && forall i :: |r| <= i < |s| ==> IsSpace(s[i])
    decreases |s|
  {
    if s != [] && IsSpace(s[|s| - 1]) {
      TrimRightShape(s[..|s| - 1]);
    }
  }

  /**
    The strip of `s` is the slice of `s` at `StripStart(s)`; it is empty or
    begins and ends with a non-space character, and everything cut off on
    either side is whitespace.
  */
  lemma StripShape(s: string)
    ensures var r, lo := Strip(s), StripStart(s);
      && (r == [] || (!IsSpace(r[0]) && !IsSpace(r[|r| - 1])))
      && 0 <= lo && lo + |r| <= |s| && r == s[lo..][..|r|]
      && (forall i :: 0 <= i < lo ==> IsSpace(s[i]))
      && (forall i :: lo + |r| <= i < |s| ==> IsSpace(s[i]))
  {
    var l := TrimLeft(s);
    TrimLeftShape(s);
    TrimRightShape(l);
    var r := TrimRight(l);
    var lo := |s| - |l|;
    assert forall i :: lo + |r| <= i < |s| ==> s[i] == l[i - lo];
  }

  /** A string without whitespace is its own strip. */
  lemma StripNoSpace(s: string)
    requires forall i :: 0 <= i < |s| ==> !IsSpace(s[i])
    ensures Strip(s) == s
  {
    assert TrimLeft(s) == s;
  }
}
