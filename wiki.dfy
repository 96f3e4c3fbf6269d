/**
  `getwiki(s)`: the first 1000 characters of the page are cut into sentences
  at `.`, the last piece is dropped, headings (pieces holding `==`) are
  skipped, and sentences are kept, each with its `.` put back, up to the
  first one whose stripped length is at most 3. Two `re.sub` clean-ups follow.
  The page lookup is a parameter: the page content, or `None` when the lookup
  raised.
*/
module Wiki {
  import opened Wrappers
  import opened Text

  /** `ny.content[:1000]`. */
  const ContentLimit: nat := 1000

  /** The reply when the lookup fails. */
  const NoInfo: string := "В энциклопедии нет информации об этом"

  /** `'==' in x`. */
  predicate IsHeading(x: string)
  {
    ContainsPair(x, '=', '=')
  }

  /** `len(x.strip()) > 3`. */
  predicate IsLong(x: string)
  {
    |Strip(x)| > 3
  }

  /** `wikitext.split('.')[:-1]` of `wikitext = content[:1000]`. */
  function Fragments(content: string): (frags: seq<string>)
    ensures forall i :: 0 <= i < |frags| ==> '.' !in frags[i]
  {
    var text := if |content| <= ContentLimit then content else content[..ContentLimit];
    SplitShape(text, '.');
    var parts := Split(text, '.');
    parts[..|parts| - 1]
  }

  /** The text the `for x in wikimas` loop accumulates, as a recursive function. */
  function KeepSentences(frags: seq<string>): string
    decreases |frags|
  {
    if frags == [] then ""
    else if IsHeading(frags[0]) then KeepSentences(frags[1..])
    else if IsLong(frags[0]) then frags[0] + "." + KeepSentences(frags[1..])
    else ""
  }

  /** The fragments that are not headings, in order. */
  function NonHeadings(frags: seq<string>): (r: seq<string>)
    ensures |r| <= |frags|
    ensures forall i :: 0 <= i < |r| ==> !IsHeading(r[i])
    decreases |frags|
  {
    if frags == [] then []
    else (if IsHeading(frags[0]) then [] else [frags[0]]) + NonHeadings(frags[1..])
  }

  /** How many leading fragments are long: the loop stops at the first short one. */
  function LongPrefix(xs: seq<string>): (n: nat)
    ensures n <= |xs|
    ensures forall j :: 0 <= j < n ==> IsLong(xs[j])
    ensures n < |xs| ==> !IsLong(xs[n])
    decreases |xs|
  {
    if xs == [] || !IsLong(xs[0]) then 0
    else
      var rest := LongPrefix(xs[1..]);
      assert forall j :: 1 <= j <= rest && j < |xs| ==> xs[j] == xs[1..][j - 1];
      1 + rest
  }

  /** Each fragment followed by `.`, concatenated. */
  function Dotted(xs: seq<string>): string
    decreases |xs|
  {
    if xs == [] then "" else xs[0] + "." + Dotted(xs[1..])
  }

  /**
    The kept text is the dotted concatenation of a prefix of the non-heading
    fragments: the longest prefix all of whose fragments are long.
  */
  lemma {:induction false} KeepSentencesIsPrefix(frags: seq<string>)
    ensures var clean := NonHeadings(frags);
      KeepSentences(frags) == Dotted(clean[..LongPrefix(clean)])
    decreases |frags|
  {
    if frags != [] {
      var clean := NonHeadings(frags);
      var rest := NonHeadings(frags[1..]);
      KeepSentencesIsPrefix(frags[1..]);
      if IsHeading(frags[0]) {
        assert clean == rest;
      } else {
        assert clean == [frags[0]] + rest;
        if IsLong(frags[0]) {
          assert clean[1..] == rest;
          var n := LongPrefix(clean);
          assert n == 1 + LongPrefix(rest);
          assert clean[..n][0] == frags[0];
          assert clean[..n][1..] == rest[..n - 1];
        } else {
          assert LongPrefix(clean) == 0;
        }
      }
    }
  }

  /** The kept text is empty or ends with `.`. */
  lemma {:induction false} KeepSentencesEndsWithDot(frags: seq<string>)
    ensures var t := KeepSentences(frags); t == "" || t[|t| - 1] == '.'
    decreases |frags|
  {
    if frags != [] {
      KeepSentencesEndsWithDot(frags[1..]);
    }
  }

  /** The `for x in wikimas` loop, with its `break`. */
  method FilterSentences(frags: seq<string>) returns (text: string)
    ensures text == KeepSentences(frags)
  {
    text := "";
    var i := 0;
    while i < |frags|
      invariant 0 <= i <= |frags|
      invariant text + KeepSentences(frags[i..]) == KeepSentences(frags)
    {
      var x := frags[i];
      assert frags[i..][0] == x && frags[i..][1..] == frags[i + 1..];
      if !IsHeading(x) {
        if IsLong(x) {
          text := text + x + ".";
        } else {
          assert text == KeepSentences(frags);
          break;
        }
      }
      i := i + 1;
    }
  }

  /**
    `re.sub(r'$[^()]*$', '', t)`: without MULTILINE, `$` matches only at the
    end or before a final newline, so the substitution removes one trailing
    newline and nothing else.
  */
  function DropFinalNewline(t: string): string
  {
    if |t| > 0 && t[|t| - 1] == '\n' then t[..|t| - 1] else t
  }

  /** On the kept text the first substitution changes nothing. */
  lemma FinalNewlineInert(frags: seq<string>)
    ensures DropFinalNewline(KeepSentences(frags)) == KeepSentences(frags)
  {
    KeepSentencesEndsWithDot(frags);
  }

  /** Index of the first `{` or `}` in `t`, or `|t|` when there is none. */
  function NextBrace(t: string): (j: nat)
    ensures j <= |t|
    ensures forall k :: 0 <= k < j ==> t[k] != '{' && t[k] != '}'
    ensures j < |t| ==> t[j] == '{' || t[j] == '}'
    decreases |t|
  {
    if t == [] || t[0] == '{' || t[0] == '}' then 0 else 1 + NextBrace(t[1..])
  }

  /**
    `re.sub(r'\{[^\{\}]*\}', '', t)`: scanning left to right, a `{` whose next
    brace is a `}` starts a match, which is removed together with that `}`;
    scanning resumes after it, so removals never expose new matches.
  */
  function StripBraces(t: string): (r: string)
    ensures |r| <= |t|
    decreases |t|
  {
    if t == [] then []
    else if t[0] == '{' && NextBrace(t[1..]) < |t| - 1 && t[1 + NextBrace(t[1..])] == '}' then
      StripBraces(t[NextBrace(t[1..]) + 2..])
    else
      [t[0]] + StripBraces(t[1..])
  }

  /** Text without `{` is left alone. */
  lemma {:induction false} StripBracesNoOpen(t: string)
    requires '{' !in t
    ensures StripBraces(t) == t
    decreases |t|
  {
    if t != [] {
      StripBracesNoOpen(t[1..]);
      assert t == [t[0]] + t[1..];
    }
  }

  /** A brace group without inner braces is removed, and what precedes it is kept. */
  lemma StripBracesGroup(a: string, g: string, b: string)
    requires '{' !in a && '{' !in g && '}' !in g
    ensures StripBraces(a + "{" + g + "}" + b) == a + StripBraces(b)
  {
    var group := "{" + g + "}" + b;
    assert a + "{" + g + "}" + b == a + group;
    StripBracesLeadingGroup(g, b);
    StripBracesKeepsPlain(a, group);
  }

  /** Text before the first `{` is kept as it is. */
  lemma {:induction false} StripBracesKeepsPlain(a: string, rest: string)
    requires '{' !in a
    ensures StripBraces(a + rest) == a + StripBraces(rest)
    decreases |a|
  {
    if a == [] {
      assert a + rest == rest;
    } else {
      assert a + rest == [a[0]] + (a[1..] + rest);
      StripBracesPlain(a[0], a[1..] + rest);
      StripBracesKeepsPlain(a[1..], rest);
      assert [a[0]] + (a[1..] + StripBraces(rest)) == a + StripBraces(rest);
    }
  }

  lemma StripBracesPlain(c: char, rest: string)
    requires c != '{'
    ensures StripBraces([c] + rest) == [c] + StripBraces(rest)
  {
    assert ([c] + rest)[1..] == rest;
  }

  lemma StripBracesLeadingGroup(g: string, b: string)
    requires '{' !in g && '}' !in g
    ensures StripBraces("{" + g + "}" + b) == StripBraces(b)
  {
    var t := "{" + g + "}" + b;
    var inner := g + ("}" + b);
    assert t[1..] == inner;
    NextBraceAfter(g, "}" + b);
    assert t[1 + |g|] == '}';
    assert t[|g| + 2..] == b;
  }

  lemma {:induction false} NextBraceAfter(g: string, rest: string)
    requires '{' !in g && '}' !in g
    requires rest != [] && rest[0] == '}'
    ensures NextBrace(g + rest) == |g|
    decreases |g|
  {
    if g == [] {
      assert g + rest == rest;
    } else {
      assert (g + rest)[1..] == g[1..] + rest;
      NextBraceAfter(g[1..], rest);
    }
  }

  /** The reply of `getwiki`. */
  function WikiText(page: Option<string>): string
  {
    match page
    case None => NoInfo
    case Some(content) => StripBraces(DropFinalNewline(KeepSentences(Fragments(content))))
  }

  /** `getwiki(s)` given the outcome of `wikipedia.page(s).content`. */
  method GetWiki(page: Option<string>) returns (text: string)
    ensures text == WikiText(page)
  {
    match page {
      case None =>
        text := NoInfo;
      case Some(content) =>
        var kept := FilterSentences(Fragments(content));
        text := StripBraces(DropFinalNewline(kept));
    }
  }
}
