/**
 * The string operations the backend (Python) and the frontend (JavaScript)
 * apply to replies, lines and transcripts.  Strings are sequences of
 * characters; case mapping is ASCII only.
 */
module Text {

  /** Characters for which Python's str.isspace() holds (the set str.strip() removes). */
  predicate IsPyWhitespace(c: char) {
    ('\t' <= c <= '\r') || ('\U{1C}' <= c <= '\U{1F}') || c == ' ' || c == '\U{85}' || c == '\U{A0}'
    || c == '\U{1680}' || ('\U{2000}' <= c <= '\U{200A}') || c == '\U{2028}' || c == '\U{2029}'
    || c == '\U{202F}' || c == '\U{205F}' || c == '\U{3000}'
  }

  /** Characters removed by JavaScript's String.prototype.trim() (WhiteSpace and LineTerminator). */
  predicate IsJsWhitespace(c: char) {
    ('\t' <= c <= '\r') || c == ' ' || c == '\U{A0}' || c == '\U{1680}' || ('\U{2000}' <= c <= '\U{200A}')
    || c == '\U{2028}' || c == '\U{2029}' || c == '\U{202F}' || c == '\U{205F}' || c == '\U{3000}'
    || c == '\U{FEFF}'
  }

  /** Which language's notion of whitespace a trim follows. */
  datatype Whitespace = Python | JavaScript

  predicate IsSpace(ws: Whitespace, c: char) {
    if ws == Python then IsPyWhitespace(c) else IsJsWhitespace(c)
  }

  /** Removes the longest prefix of characters satisfying `ws`. */
  function TrimStart(s: string, ws: Whitespace): (r: string)
    ensures |r| <= |s| && r == s[|s| - |r|..]
    ensures r == [] || !IsSpace(ws, r[0])
    ensures forall i :: 0 <= i < |s| - |r| ==> IsSpace(ws, s[i])
    decreases |s|
  {
    if |s| > 0 && IsSpace(ws, s[0]) then TrimStart(s[1..], ws) else s
  }

  /** Removes the longest suffix of characters satisfying `ws`. */
  function TrimEnd(s: string, ws: Whitespace): (r: string)
    ensures |r| <= |s| && r == s[..|r|]
    ensures r == [] || !IsSpace(ws, r[|r| - 1])
    ensures forall i :: |r| <= i < |s| ==> IsSpace(ws, s[i])
    decreases |s|
  {
    if |s| > 0 && IsSpace(ws, s[|s| - 1]) then TrimEnd(s[..|s| - 1], ws) else s
  }

  /** Trimming both ends leaves a piece of the original. */
  lemma TrimmedInside(s: string, ws: Whitespace)
    ensures Contains(s, TrimEnd(TrimStart(s, ws), ws))
  {
    SuffixPrefixInside(s, TrimStart(s, ws), TrimEnd(TrimStart(s, ws), ws));
  }

  /** A prefix of a suffix is a piece of the original. */
  lemma SuffixPrefixInside(s: string, l: string, r: string)
    requires |l| <= |s| && l == s[|s| - |l|..]
    requires |r| <= |l| && r == l[..|r|]
    ensures Contains(s, r)
  {
    var k := |s| - |l|;
    assert s[k..k + |r|] == r by {
      assert forall i :: 0 <= i < |r| ==> s[k..k + |r|][i] == l[i];
    }
    ContainsAt(s, r, k);
  }

  /** Python's str.strip(). */
  function Strip(s: string): (r: string)
    ensures Contains(s, r)
    ensures r == [] || (!IsPyWhitespace(r[0]) && !IsPyWhitespace(r[|r| - 1]))
    ensures (s == [] || (!IsPyWhitespace(s[0]) && !IsPyWhitespace(s[|s| - 1]))) ==> r == s
  {
    TrimmedInside(s, Python);
    TrimEnd(TrimStart(s, Python), Python)
  }

  /** JavaScript's String.prototype.trim(). */
  function Trim(s: string): (r: string)
    ensures Contains(s, r)
    ensures r == [] || (!IsJsWhitespace(r[0]) && !IsJsWhitespace(r[|r| - 1]))
    ensures (s == [] || (!IsJsWhitespace(s[0]) && !IsJsWhitespace(s[|s| - 1]))) ==> r == s
  {
    TrimmedInside(s, JavaScript);
    TrimEnd(TrimStart(s, JavaScript), JavaScript)
  }

  predicate AllPyWhitespace(s: string) {
    forall i :: 0 <= i < |s| ==> IsPyWhitespace(s[i])
  }

  lemma {:induction false} TrimStartSkipsWhitespace(pre: string, x: string, ws: Whitespace)
    requires forall i :: 0 <= i < |pre| ==> IsSpace(ws, pre[i])
    ensures TrimStart(pre + x, ws) == TrimStart(x, ws)
    decreases |pre|
  {
    if |pre| > 0 {
      assert (pre + x)[0] == pre[0] && IsSpace(ws, pre[0]);
      assert (pre + x)[1..] == pre[1..] + x;
      TrimStartSkipsWhitespace(pre[1..], x, ws);
      assert TrimStart(pre + x, ws) == TrimStart(pre[1..] + x, ws);
    } else {
      assert pre + x == x;
    }
  }

  lemma {:induction false} TrimEndSkipsWhitespace(x: string, post: string, ws: Whitespace)
    requires forall i :: 0 <= i < |post| ==> IsSpace(ws, post[i])
    ensures TrimEnd(x + post, ws) == TrimEnd(x, ws)
    decreases |post|
  {
    if |post| > 0 {
      assert (x + post)[|x + post| - 1] == post[|post| - 1] && IsSpace(ws, post[|post| - 1]);
      assert (x + post)[..|x + post| - 1] == x + post[..|post| - 1];
      TrimEndSkipsWhitespace(x, post[..|post| - 1], ws);
      assert TrimEnd(x + post, ws) == TrimEnd(x + post[..|post| - 1], ws);
    } else {
      assert x + post == x;
    }
  }

  lemma {:induction false} TrimStartAppend(x: string, y: string, ws: Whitespace)
    requires TrimStart(x, ws) != []
    ensures TrimStart(x + y, ws) == TrimStart(x, ws) + y
    decreases |x|
  {
    if IsSpace(ws, x[0]) {
      assert (x + y)[1..] == x[1..] + y;
      TrimStartAppend(x[1..], y, ws);
    }
  }

  /** Trailing whitespace after a text with a non-blank start is trimmed away with the text's own. */
  lemma TrimBothPaddedAfter(x: string, post: string, ws: Whitespace)
    requires TrimStart(x, ws) != []
    requires forall i :: 0 <= i < |post| ==> IsSpace(ws, post[i])
    ensures TrimEnd(TrimStart(x + post, ws), ws) == TrimEnd(TrimStart(x, ws), ws)
  {
    TrimStartAppend(x, post, ws);
    TrimEndSkipsWhitespace(TrimStart(x, ws), post, ws);
  }

  /** A blank text stays blank with whitespace after it. */
  lemma TrimBothPaddedBlank(x: string, post: string, ws: Whitespace)
    requires TrimStart(x, ws) == []
    requires forall i :: 0 <= i < |post| ==> IsSpace(ws, post[i])
    ensures TrimStart(x + post, ws) == []
  {
    assert forall i :: 0 <= i < |x| ==> IsSpace(ws, x[i]);
    assert forall i :: 0 <= i < |x + post| ==> IsSpace(ws, (x + post)[i]) by {
      forall i | 0 <= i < |x + post|
        ensures IsSpace(ws, (x + post)[i])
      {
        if i < |x| { assert (x + post)[i] == x[i]; } else { assert (x + post)[i] == post[i - |x|]; }
      }
    }
    TrimStartSkipsWhitespace(x + post, [], ws);
    assert x + post + [] == x + post;
  }

  lemma TrimBothPadded(pre: string, x: string, post: string, ws: Whitespace)
    requires forall i :: 0 <= i < |pre| ==> IsSpace(ws, pre[i])
    requires forall i :: 0 <= i < |post| ==> IsSpace(ws, post[i])
    ensures TrimEnd(TrimStart(pre + x + post, ws), ws) == TrimEnd(TrimStart(x, ws), ws)
  {
    assert pre + x + post == pre + (x + post);
    TrimStartSkipsWhitespace(pre, x + post, ws);
    if TrimStart(x, ws) != [] {
      TrimBothPaddedAfter(x, post, ws);
    } else {
      TrimBothPaddedBlank(x, post, ws);
    }
  }

  /** Whitespace around a text never survives Python's strip(). */
  lemma StripPadded(pre: string, x: string, post: string)
    requires AllPyWhitespace(pre) && AllPyWhitespace(post)
    ensures Strip(pre + x + post) == Strip(x)
  {
    TrimBothPadded(pre, x, post, Python);
  }


  /** Python's str.lower() and JavaScript's toLowerCase(), restricted to ASCII letters. */
  function LowerChar(c: char): char {
    if 'A' <= c <= 'Z' then (c as int + 32) as char else c
  }

  function Lower(s: string): (r: string)
    ensures |r| == |s| && forall i :: 0 <= i < |s| ==> r[i] == LowerChar(s[i])
  {
    seq(|s|, i requires 0 <= i < |s| => LowerChar(s[i]))
  }

  predicate StartsWith(s: string, prefix: string) {
    |prefix| <= |s| && s[..|prefix|] == prefix
  }

  /** Python's `sub in s` for strings. */
  predicate Contains(s: string, sub: string)
    decreases |s|
  {
    StartsWith(s, sub) || (|s| > 0 && Contains(s[1..], sub))
  }

  lemma {:induction false} ContainsAt(s: string, sub: string, k: nat)
    requires k + |sub| <= |s| && s[k..k + |sub|] == sub
    ensures Contains(s, sub)
    decreases k
  {
    if k > 0 {
      assert s[1..][k - 1..k - 1 + |sub|] == s[k..k + |sub|];
      ContainsAt(s[1..], sub, k - 1);
    }
  }

  /**
   * Python's s.replace(pat, ""): every leftmost, non-overlapping occurrence
   * of `pat` is removed in one pass from left to right.
   */
  function RemoveAll(s: string, pat: string): (r: string)
    requires |pat| > 0
    ensures |r| <= |s|
    decreases |s|
  {
    if |s| < |pat| then s
    else if s[..|pat|] == pat then RemoveAll(s[|pat|..], pat)
    else [s[0]] + RemoveAll(s[1..], pat)
  }

  /** A text that does not contain the first character of the pattern passes through unchanged. */
  lemma {:induction false} RemoveAllKeeps(x: string, y: string, pat: string)
    requires |pat| > 0 && pat[0] !in x
    ensures RemoveAll(x + y, pat) == x + RemoveAll(y, pat)
    decreases |x|
  {
    if |x| > 0 {
      assert (x + y)[0] == x[0] && (x + y)[1..] == x[1..] + y;
      if |x + y| >= |pat| {
        assert (x + y)[..|pat|][0] == x[0];
      }
      RemoveAllKeeps(x[1..], y, pat);
    } else {
      assert x + y == y;
    }
  }

  /** A string without the separator splits into itself alone. */
  function Split(s: string, sep: char): (parts: seq<string>)
    ensures |parts| >= 1
    decreases |s|
  {
    if |s| == 0 then [""]
    else if s[0] == sep then [""] + Split(s[1..], sep)
    else var rest := Split(s[1..], sep); [[s[0]] + rest[0]] + rest[1..]
  }

  function Last<T>(s: seq<T>): T requires |s| > 0 { s[|s| - 1] }

  function AllButLast<T>(s: seq<T>): seq<T> requires |s| > 0 { s[..|s| - 1] }

  lemma ConsLast<T>(x: T, s: seq<T>)
    requires |s| > 0
    ensures Last([x] + s) == Last(s) && AllButLast([x] + s) == [x] + AllButLast(s)
  {
    assert ([x] + s)[|s|] == s[|s| - 1];
    assert ([x] + s)[..|s|] == [x] + s[..|s| - 1];
  }

  /** Joins parts with the separator between consecutive ones. */
  function Join(parts: seq<string>, sep: char): string
    requires |parts| > 0
    decreases |parts|
  {
    if |parts| == 1 then parts[0] else parts[0] + [sep] + Join(parts[1..], sep)
  }

  /** Splitting loses nothing and no part holds the separator: Join undoes Split. */
  lemma {:induction false} SplitJoin(s: string, sep: char)
    ensures Join(Split(s, sep), sep) == s
    ensures forall i :: 0 <= i < |Split(s, sep)| ==> sep !in Split(s, sep)[i]
    decreases |s|
  {
    if |s| > 0 {
      SplitJoin(s[1..], sep);
      var rest := Split(s[1..], sep);
      if s[0] != sep && |rest| > 1 {
        assert Split(s, sep)[1..] == rest[1..];
      }
    }
  }

  /** Split on a text that starts with a known character. */
  lemma SplitCons(c: char, u: string, sep: char)
    ensures c == sep ==> Split([c] + u, sep) == [""] + Split(u, sep)
    ensures c != sep ==> Split([c] + u, sep) == [[c] + Split(u, sep)[0]] + Split(u, sep)[1..]
  {
    assert ([c] + u)[0] == c && ([c] + u)[1..] == u;
  }

  /** Dropping the head commutes with the complete-parts and rest views of a list of parts. */
  lemma TailParts<T>(r: seq<T>, x: seq<T>)
    requires |r| > 1
    ensures (AllButLast(r) + x)[0] == r[0]
    ensures (AllButLast(r) + x)[1..] == AllButLast(r[1..]) + x
    ensures Last(r[1..]) == Last(r)
  {
    assert AllButLast(r) == [r[0]] + AllButLast(r[1..]);
  }

  /** SplitAppend's step for a text starting with the separator. */
  lemma SplitAppendSep(u: string, t: string, sep: char)
    requires Split(u + t, sep) == AllButLast(Split(u, sep)) + Split(Last(Split(u, sep)) + t, sep)
    ensures Split([sep] + u + t, sep) == AllButLast(Split([sep] + u, sep)) + Split(Last(Split([sep] + u, sep)) + t, sep)
  {
    var rest, x := Split(u, sep), Split(Last(Split(u, sep)) + t, sep);
    assert [sep] + u + t == [sep] + (u + t);
    SplitCons(sep, u, sep);
    SplitCons(sep, u + t, sep);
    ConsLast("", rest);
    assert Split([sep] + u + t, sep) == [""] + (AllButLast(rest) + x);
    assert AllButLast(Split([sep] + u, sep)) + x == ([""] + AllButLast(rest)) + x;
  }

  /** SplitAppend's step for a text starting with another character, when the rest has no separator. */
  lemma SplitAppendShort(c: char, u: string, t: string, sep: char)
    requires c != sep && |Split(u, sep)| == 1
    requires Split(u + t, sep) == AllButLast(Split(u, sep)) + Split(Last(Split(u, sep)) + t, sep)
    ensures Split([c] + u + t, sep) == AllButLast(Split([c] + u, sep)) + Split(Last(Split([c] + u, sep)) + t, sep)
  {
    var rest := Split(u, sep);
    assert [c] + u + t == [c] + (u + t);
    SplitCons(c, u, sep);
    SplitCons(c, u + t, sep);
    SplitCons(c, rest[0] + t, sep);
    assert Split(u + t, sep) == Split(rest[0] + t, sep);
    assert [c] + rest[0] + t == [c] + (rest[0] + t);
  }

  /** SplitAppend's step for a text starting with another character, when the rest has a separator. */
  lemma SplitAppendLong(c: char, u: string, t: string, sep: char)
    requires c != sep && |Split(u, sep)| > 1
    requires Split(u + t, sep) == AllButLast(Split(u, sep)) + Split(Last(Split(u, sep)) + t, sep)
    ensures Split([c] + u + t, sep) == AllButLast(Split([c] + u, sep)) + Split(Last(Split([c] + u, sep)) + t, sep)
  {
    var rest := Split(u, sep);
    assert [c] + u + t == [c] + (u + t);
    SplitCons(c, u, sep);
    SplitCons(c, u + t, sep);
    TailParts(rest, Split(Last(rest) + t, sep));
    ConsLast([c] + rest[0], rest[1..]);
  }

  /**
   * The heart of incremental line decoding: appending text to a string only
   * extends its last (unterminated) part; the complete parts stay as they were.
   */
  lemma {:induction false} SplitAppend(s: string, t: string, sep: char)
    ensures Split(s + t, sep) == AllButLast(Split(s, sep)) + Split(Last(Split(s, sep)) + t, sep)
    decreases |s|
  {
    if |s| == 0 {
      assert s + t == t;
    } else {
      var c, u := s[0], s[1..];
      assert s == [c] + u;
      SplitAppend(u, t, sep);
      if c == sep {
        SplitAppendSep(u, t, sep);
      } else if |Split(u, sep)| == 1 {
        SplitAppendShort(c, u, t, sep);
      } else {
        SplitAppendLong(c, u, t, sep);
      }
    }
  }




  /** Position of the first occurrence of `c` in `s`. */
  function IndexOf(s: string, c: char): (i: nat)
    requires c in s
    ensures i < |s| && s[i] == c && c !in s[..i]
    decreases |s|
  {
    if s[0] == c then 0 else 1 + IndexOf(s[1..], c)
  }

  /** The complete parts and the rest, after peeling off the first part. */
  lemma SplitFirstParts(s: string, sep: char)
    requires sep in s
    ensures AllButLast(Split(s, sep)) == [s[..IndexOf(s, sep)]] + AllButLast(Split(s[IndexOf(s, sep) + 1..], sep))
    ensures Last(Split(s, sep)) == Last(Split(s[IndexOf(s, sep) + 1..], sep))
  {
    SplitAtFirst(s, sep);
    ConsLast(s[..IndexOf(s, sep)], Split(s[IndexOf(s, sep) + 1..], sep));
  }

  /** What f yields for the complete parts, after peeling off the first one. */
  lemma FlatMapFirstPart<U>(f: string -> seq<U>, s: string, sep: char)
    requires sep in s
    ensures FlatMap(f, AllButLast(Split(s, sep))) ==
              f(s[..IndexOf(s, sep)]) + FlatMap(f, AllButLast(Split(s[IndexOf(s, sep) + 1..], sep)))
  {
    SplitFirstParts(s, sep);
    FlatMapAppend(f, [s[..IndexOf(s, sep)]], AllButLast(Split(s[IndexOf(s, sep) + 1..], sep)));
    FlatMapSingleton(f, s[..IndexOf(s, sep)]);
  }

  /** Splitting at the first separator peels off the first part. */
  lemma {:induction false} SplitAtFirst(s: string, sep: char)
    requires sep in s
    ensures Split(s, sep) == [s[..IndexOf(s, sep)]] + Split(s[IndexOf(s, sep) + 1..], sep)
    decreases |s|
  {
    if s[0] == sep {
      assert s[..0] == "";
    } else {
      SplitAtFirst(s[1..], sep);
      assert s[1..][..IndexOf(s[1..], sep)] == s[1..IndexOf(s, sep)];
      assert s[1..][IndexOf(s[1..], sep) + 1..] == s[IndexOf(s, sep) + 1..];
      var rest := Split(s[1..], sep);
      assert rest[0] == s[1..IndexOf(s, sep)];
      assert [s[0]] + rest[0] == s[..IndexOf(s, sep)];
    }
  }

  /** The complete parts and the unfinished rest of s + t, from those of s. */
  lemma SplitAppendParts(s: string, t: string, sep: char)
    ensures AllButLast(Split(s + t, sep)) == AllButLast(Split(s, sep)) + AllButLast(Split(Last(Split(s, sep)) + t, sep))
    ensures Last(Split(s + t, sep)) == Last(Split(Last(Split(s, sep)) + t, sep))
  {
    SplitAppend(s, t, sep);
  }

  /** Without a separator nothing is split off. */
  lemma {:induction false} SplitNoSeparator(s: string, sep: char)
    requires sep !in s
    ensures Split(s, sep) == [s]
    decreases |s|
  {
    if |s| > 0 {
      SplitNoSeparator(s[1..], sep);
      assert [s[0]] + s[1..] == s;
    }
  }

  /** Concatenation of a sequence of strings, in order. */
  function Concat(chunks: seq<string>): string
    decreases |chunks|
  {
    if |chunks| == 0 then "" else Concat(chunks[..|chunks| - 1]) + chunks[|chunks| - 1]
  }

  /** Split undoes Join when no part holds the separator. */
  lemma {:induction false} SplitOfJoin(parts: seq<string>, sep: char)
    requires |parts| > 0 && forall i :: 0 <= i < |parts| ==> sep !in parts[i]
    ensures Split(Join(parts, sep), sep) == parts
    decreases |parts|
  {
    if |parts| == 1 {
      SplitNoSeparator(parts[0], sep);
    } else {
      var a := parts[0];
      var b := Join(parts[1..], sep);
      var s := a + [sep] + b;
      assert sep in s by { assert s[|a|] == sep; }
      IndexOfAfter(a, b, sep);
      SplitAtFirst(s, sep);
      assert s[..|a|] == a && s[|a| + 1..] == b;
      SplitOfJoin(parts[1..], sep);
    }
  }
  /** A text whose lines all end in the separator has them as its complete parts and nothing left over. */
  lemma SplitTerminated(lines: seq<string>, sep: char)
    requires forall i :: 0 <= i < |lines| ==> sep !in lines[i]
    ensures AllButLast(Split(Join(lines + [""], sep), sep)) == lines
    ensures Last(Split(Join(lines + [""], sep), sep)) == ""
  {
    var all := lines + [""];
    assert forall i :: 0 <= i < |all| ==> sep !in all[i] by {
      forall i | 0 <= i < |all|
        ensures sep !in all[i]
      {
        if i < |lines| { assert all[i] == lines[i]; }
      }
    }
    SplitOfJoin(all, sep);
    assert AllButLast(all) == lines;
  }


  lemma IndexOfAfter(a: string, b: string, sep: char)
    requires sep !in a
    ensures sep in a + [sep] + b && IndexOf(a + [sep] + b, sep) == |a|
  {
    var s := a + [sep] + b;
    assert s[|a|] == sep;
    assert s[..|a|] == a;
  }

  /** Applies f to every element and concatenates the results, in order. */
  function FlatMap<T, U>(f: T -> seq<U>, xs: seq<T>): seq<U>
    decreases |xs|
  {
    if |xs| == 0 then [] else f(xs[0]) + FlatMap(f, xs[1..])
  }

  lemma FlatMapSingleton<T, U>(f: T -> seq<U>, x: T)
    ensures FlatMap(f, [x]) == f(x)
  {
    assert [x][1..] == [];
    assert [x][0] == x;
  }

  lemma {:induction false} FlatMapAppend<T, U>(f: T -> seq<U>, a: seq<T>, b: seq<T>)
    ensures FlatMap(f, a + b) == FlatMap(f, a) + FlatMap(f, b)
    decreases |a|
  {
    if |a| == 0 {
      assert a + b == b;
    } else {
      assert (a + b)[0] == a[0] && (a + b)[1..] == a[1..] + b;
      FlatMapAppend(f, a[1..], b);
    }
  }
}
