/**
 * The Python string methods the pipeline uses (`strip`, `strip(c)`,
 * `replace`, `isdigit`, `join`), on strings of Unicode code points.
 */
module PyStr {

  /** The characters for which Python's `str.isspace()` holds. */
  predicate IsSpace(c: char) {
    || c == ' '
    || ('\t' <= c <= '\r')
    || ('\U{1C}' <= c <= '\U{1F}')
    || c == '\U{85}' || c == '\U{A0}' || c == '\U{1680}'
    || ('\U{2000}' <= c <= '\U{200A}')
    || c == '\U{2028}' || c == '\U{2029}' || c == '\U{202F}' || c == '\U{205F}' || c == '\U{3000}'
  }

  /** What a strip removes: `strip()` removes whitespace, `strip(c)` removes the one character `c`. */
  datatype StripSet = Whitespace | Only(ch: char)

  predicate Removable(cs: StripSet, c: char) {
    match cs
    case Whitespace => IsSpace(c)
    case Only(d) => c == d
  }

  /** `s.lstrip(...)`: the suffix left after dropping the leading removable characters. */
  function StripLeft(s: string, cs: StripSet): (r: string)
    ensures |r| <= |s| && r == s[|s| - |r|..]
    ensures forall k :: 0 <= k < |s| - |r| ==> Removable(cs, s[k])
    ensures r != [] ==> !Removable(cs, r[0])
  {
    if s != [] && Removable(cs, s[0]) then StripLeft(s[1..], cs) else s
  }

  /** `s.rstrip(...)`: the prefix left after dropping the trailing removable characters. */
  function StripRight(s: string, cs: StripSet): (r: string)
    ensures |r| <= |s| && r == s[..|r|]
    ensures forall k :: |r| <= k < |s| ==> Removable(cs, s[k])
    ensures r != [] ==> !Removable(cs, r[|r| - 1])
  {
    if s != [] && Removable(cs, s[|s| - 1]) then StripRight(s[..|s| - 1], cs) else s
  }

  /** How many characters `Strip` drops at the front. */
  function StripOffset(s: string, cs: StripSet): nat {
    |s| - |StripLeft(s, cs)|
  }

  /**
   * `s.strip(...)`: the infix of `s` obtained by dropping every removable
   * character at both ends, and nothing else.
   */
  function Strip(s: string, cs: StripSet): (r: string)
    ensures StripOffset(s, cs) + |r| <= |s|
    ensures r == s[StripOffset(s, cs)..StripOffset(s, cs) + |r|]
    ensures forall k :: 0 <= k < StripOffset(s, cs) ==> Removable(cs, s[k])
    ensures forall k :: StripOffset(s, cs) + |r| <= k < |s| ==> Removable(cs, s[k])
    ensures r != [] ==> !Removable(cs, r[0]) && !Removable(cs, r[|r| - 1])
  {
    StripRight(StripLeft(s, cs), cs)
  }

  /** Stripping twice with the same set removes nothing more. */
  lemma StripIdempotent(s: string, cs: StripSet)
    ensures Strip(Strip(s, cs), cs) == Strip(s, cs)
  {
    var r := Strip(s, cs);
    assert StripLeft(r, cs) == r;
    assert StripRight(r, cs) == r;
  }

  /**
   * `s.replace(pat, rep)` for a non-empty `pat`: every occurrence found by a
   * left-to-right scan, without overlaps, is replaced.
   */
  function Replace(s: string, pat: string, rep: string): (r: string)
    requires pat != []
    ensures rep == [] ==> |r| <= |s|
    ensures |pat| == 1 && rep == [] ==> pat[0] !in r
    decreases |s|
  {
    if |s| < |pat| then s
    else if s[..|pat|] == pat then rep + Replace(s[|pat|..], pat, rep)
    else [s[0]] + Replace(s[1..], pat, rep)
  }

  /** A string in which `pat` cannot start anywhere is left as it is. */
  lemma {:induction false} ReplaceAbsent(s: string, pat: string, rep: string)
    requires pat != [] && pat[0] !in s
    ensures Replace(s, pat, rep) == s
  {
    if |s| >= |pat| {
      assert s[..|pat|][0] == s[0];
      ReplaceAbsent(s[1..], pat, rep);
      assert s == [s[0]] + s[1..];
    }
  }

  /** A string that does not start with `pat`'s first character keeps that character. */
  lemma ReplaceSkip(s: string, pat: string, rep: string)
    requires pat != [] && s != [] && s[0] != pat[0]
    ensures Replace(s, pat, rep) == [s[0]] + Replace(s[1..], pat, rep)
  {
    if |s| >= |pat| {
      assert s[..|pat|][0] == s[0];
    } else {
      if |s[1..]| < |pat| {
        assert s == [s[0]] + s[1..];
      }
    }
  }

  /** Removing a suffix `pat` whose first character does not occur before it. */
  lemma {:induction false} ReplaceSuffix(s: string, pat: string)
    requires pat != [] && pat[0] !in s
    ensures Replace(s + pat, pat, "") == s
  {
    if s == [] {
      assert (s + pat)[..|pat|] == pat;
      assert (s + pat)[|pat|..] == [];
    } else {
      ReplaceSkip(s + pat, pat, "");
      assert (s + pat)[1..] == s[1..] + pat;
      ReplaceSuffix(s[1..], pat);
      assert s == [s[0]] + s[1..];
    }
  }

  /** A string with no whitespace at either end is unchanged by `strip()`. */
  lemma StripNothing(s: string, cs: StripSet)
    requires s != [] && !Removable(cs, s[0]) && !Removable(cs, s[|s| - 1])
    ensures Strip(s, cs) == s
  {
  }

  /** Left-stripping removable padding in front of a text that starts with a kept character. */
  lemma {:induction false} StripLeftPad(pad: string, u: string, cs: StripSet)
    requires forall k :: 0 <= k < |pad| ==> Removable(cs, pad[k])
    requires u != [] && !Removable(cs, u[0])
    ensures StripLeft(pad + u, cs) == u
  {
    if pad == [] {
      assert pad + u == u;
    } else {
      assert (pad + u)[0] == pad[0];
      assert (pad + u)[1..] == pad[1..] + u;
      StripLeftPad(pad[1..], u, cs);
    }
  }

  /** Right-stripping removable padding after a text that ends with a kept character. */
  lemma {:induction false} StripRightPad(u: string, pad: string, cs: StripSet)
    requires forall k :: 0 <= k < |pad| ==> Removable(cs, pad[k])
    requires u != [] && !Removable(cs, u[|u| - 1])
    ensures StripRight(u + pad, cs) == u
  {
    if pad == [] {
      assert u + pad == u;
    } else {
      var s := u + pad;
      assert s[|s| - 1] == pad[|pad| - 1];
      assert s[..|s| - 1] == u + pad[..|pad| - 1];
      StripRightPad(u, pad[..|pad| - 1], cs);
    }
  }

  /** Stripping removable padding from both sides of a text without removable ends. */
  lemma StripAround(t: string, pad: string, cs: StripSet)
    requires t != [] && !Removable(cs, t[0]) && !Removable(cs, t[|t| - 1])
    requires forall k :: 0 <= k < |pad| ==> Removable(cs, pad[k])
    ensures Strip(pad + t + pad, cs) == t
  {
    assert pad + t + pad == pad + (t + pad);
    assert (t + pad)[0] == t[0];
    StripLeftPad(pad, t + pad, cs);
    StripRightPad(t, pad, cs);
  }

  /** Stripping removable padding in front of a text without removable ends. */
  lemma StripLeading(t: string, pad: string, cs: StripSet)
    requires t != [] && !Removable(cs, t[0]) && !Removable(cs, t[|t| - 1])
    requires forall k :: 0 <= k < |pad| ==> Removable(cs, pad[k])
    ensures Strip(pad + t, cs) == t
  {
    StripLeftPad(pad, t, cs);
    assert t + [] == t;
    StripRightPad(t, [], cs);
  }

  predicate IsDigit(c: char) {
    '0' <= c <= '9'
  }

  /** Python's `s.isdigit()` with the digits restricted to ASCII 0-9: non-empty and all digits. */
  predicate IsDigits(s: string) {
    s != [] && forall k :: 0 <= k < |s| ==> IsDigit(s[k])
  }

  /** The value of a string of decimal digits. */
  function DigitsValue(s: string): nat
    requires forall k :: 0 <= k < |s| ==> IsDigit(s[k])
  {
    if s == [] then 0
    else
      assert IsDigit(s[|s| - 1]);
      DigitsValue(s[..|s| - 1]) * 10 + (s[|s| - 1] as int - '0' as int)
  }

  /** `sep.join(parts)`. */
  function Join(sep: string, parts: seq<string>): (r: string)
    ensures parts == [] ==> r == ""
    ensures |parts| == 1 ==> r == parts[0]
    ensures parts != [] ==> |r| >= |parts[0]|
  {
    if parts == [] then ""
    else if |parts| == 1 then parts[0]
    else parts[0] + sep + Join(sep, parts[1..])
  }

  /** Joining two non-empty lists: the two joins with one separator between them. */
  lemma {:induction false} JoinConcat(sep: string, a: seq<string>, b: seq<string>)
    requires a != [] && b != []
    ensures Join(sep, a + b) == Join(sep, a) + sep + Join(sep, b)
  {
    var s := a + b;
    assert s[0] == a[0];
    if |a| == 1 {
      assert s[1..] == b;
    } else {
      assert s[1..] == a[1..] + b;
      JoinConcat(sep, a[1..], b);
      var ja, jb := Join(sep, a[1..]), Join(sep, b);
      assert Join(sep, s) == a[0] + sep + (ja + sep + jb);
      assert Join(sep, a) == a[0] + sep + ja;
    }
  }

  /** The joined text around one part: what the parts before and after it contribute. */
  lemma {:induction false} JoinAround(sep: string, before: seq<string>, x: string, after: seq<string>)
    ensures Join(sep, before + [x] + after)
         == (if before == [] then "" else Join(sep, before) + sep) + x + (if after == [] then "" else sep + Join(sep, after))
  {
    var parts := before + [x] + after;
    if before == [] && after == [] {
      assert parts == [x];
    } else if before == [] {
      assert parts == [x] + after;
      JoinConcat(sep, [x], after);
      assert "" + x + (sep + Join(sep, after)) == x + sep + Join(sep, after);
    } else if after == [] {
      assert parts == before + [x];
      JoinConcat(sep, before, [x]);
      assert (Join(sep, before) + sep) + x + "" == Join(sep, before) + sep + x;
    } else {
      var xs := [x] + after;
      assert parts == before + xs;
      JoinConcat(sep, [x], after);
      JoinConcat(sep, before, xs);
      var jb, ja := Join(sep, before), Join(sep, after);
      assert jb + sep + (x + sep + ja) == (jb + sep) + x + (sep + ja);
    }
  }
}
