/**
 * The string operations the gallery search uses: String.prototype.trim,
 * String.prototype.toLowerCase, String.prototype.includes and
 * Array.prototype.join, as defined by ECMAScript.
 */
module Strings {

  /**
   * The code points that `trim` strips: ECMAScript's WhiteSpace (tab, vertical
   * tab, form feed, the byte order mark and every space separator) and its
   * LineTerminator (line feed, carriage return, U+2028, U+2029).
   */
  predicate IsSpace(c: char)
  {
    c == '\t' || c == '\n' || c == '\U{000B}' || c == '\U{000C}' || c == '\r' ||
    c == ' ' || c == '\U{00A0}' || c == '\U{1680}' || ('\U{2000}' <= c <= '\U{200A}') ||
    c == '\U{2028}' || c == '\U{2029}' || c == '\U{202F}' || c == '\U{205F}' ||
    c == '\U{3000}' || c == '\U{FEFF}'
  }

  predicate IsBlank(s: string)
  {
    forall i :: 0 <= i < |s| ==> IsSpace(s[i])
  }

  /** Lower-case mapping of one character, for the ASCII letters. */
  function LowerChar(c: char): (d: char)
    ensures !('A' <= d <= 'Z')
    ensures IsSpace(d) <==> IsSpace(c)
    ensures c != d ==> 'A' <= c <= 'Z' && d as int == c as int + 32
  {
    if 'A' <= c <= 'Z' then (c as int + 32) as char else c
  }

  /** `toLowerCase`: the string with every character lower-cased, nothing else changed. */
  function Lower(s: string): string
  {
    seq(|s|, i requires 0 <= i < |s| => LowerChar(s[i]))
  }

  /** Removes the leading white space of `s`. */
  function TrimStart(s: string): (r: string)
    ensures |r| <= |s| && r == s[|s| - |r|..]
    ensures forall k :: 0 <= k < |s| - |r| ==> IsSpace(s[k])
    ensures r == [] || !IsSpace(r[0])
  {
    if s != [] && IsSpace(s[0]) then
      var r := TrimStart(s[1..]);
      assert s[1..][|s[1..]| - |r|..] == s[|s| - |r|..];
      r
    else s
  }

  /** Removes the trailing white space of `s`. */
  function TrimEnd(s: string): (r: string)
    ensures |r| <= |s| && r == s[..|r|]
    ensures forall k :: |r| <= k < |s| ==> IsSpace(s[k])
    ensures r == [] || !IsSpace(r[|r| - 1])
  {
    if s != [] && IsSpace(s[|s| - 1]) then
      var r := TrimEnd(s[..|s| - 1]);
      assert s[..|s| - 1][..|r|] == s[..|r|];
      r
    else s
  }

  /** `trim`: `s` without its leading and trailing white space. */
  function Trim(s: string): (r: string)
    ensures |r| <= |s|
    ensures r == [] || (!IsSpace(r[0]) && !IsSpace(r[|r| - 1]))
  {
    TrimEnd(TrimStart(s))
  }

  /**
   * What `trim` returns is the middle of `s`: everything cut off on either side
   * is white space, and what is left neither starts nor ends with it.
   */
  lemma TrimSlice(s: string) returns (i: int, j: int)
    ensures 0 <= i <= j <= |s| && Trim(s) == s[i..j]
    ensures forall k :: 0 <= k < i ==> IsSpace(s[k])
    ensures forall k :: j <= k < |s| ==> IsSpace(s[k])
    ensures Trim(s) == [] || (!IsSpace(Trim(s)[0]) && !IsSpace(Trim(s)[|Trim(s)| - 1]))
  {
    var t := TrimStart(s);
    var r := TrimEnd(t);
    assert r == Trim(s);
    i := |s| - |t|;
    j := i + |r|;
    assert t == s[i..];
    assert r == t[..|r|];
    SliceOfSuffix(s, i, |r|);
    SpaceAfterPrefix(s, t, r, i);
  }

  /** What TrimEnd cuts off the suffix `t == s[i..]` is the white space of `s` from `i + |r|` on. */
  lemma SpaceAfterPrefix(s: string, t: string, r: string, i: int)
    requires 0 <= i <= |s| && t == s[i..] && |r| <= |t|
    requires forall k :: |r| <= k < |t| ==> IsSpace(t[k])
    ensures forall k :: i + |r| <= k < |s| ==> IsSpace(s[k])
  {
    forall k | i + |r| <= k < |s|
      ensures IsSpace(s[k])
    {
      assert s[k] == t[k - i];
    }
  }

  /** The first `n` characters after position `i`, and what follows them, as slices of `s`. */
  lemma SliceOfSuffix(s: string, i: int, n: int)
    requires 0 <= i <= |s| && 0 <= n <= |s| - i
    ensures s[i..][..n] == s[i..i + n] && s[i..][n..] == s[i + n..]
  {
  }

  /** `trim` returns the empty string exactly when `s` is all white space. */
  lemma TrimEmptyIffBlank(s: string)
    ensures Trim(s) == [] <==> IsBlank(s)
  {
    var i, j := TrimSlice(s);
    if Trim(s) == [] {
      assert i == j;
      assert forall k :: 0 <= k < |s| ==> (k < i ==> s[k] == s[..i][k]) && (k >= j ==> s[k] == s[j..][k - j]);
    } else {
      assert s[i] == Trim(s)[0];
    }
  }

  lemma LowerTail(s: string)
    requires s != []
    ensures Lower(s)[1..] == Lower(s[1..])
  {
  }

  lemma LowerInit(s: string)
    requires s != []
    ensures Lower(s)[..|s| - 1] == Lower(s[..|s| - 1])
  {
  }

  lemma {:induction false} LowerTrimStart(s: string)
    ensures Lower(TrimStart(s)) == TrimStart(Lower(s))
    decreases |s|
  {
    if s != [] && IsSpace(s[0]) {
      LowerTail(s);
      LowerTrimStart(s[1..]);
    }
  }

  lemma {:induction false} LowerTrimEnd(s: string)
    ensures Lower(TrimEnd(s)) == TrimEnd(Lower(s))
    decreases |s|
  {
    if s != [] && IsSpace(s[|s| - 1]) {
      LowerInit(s);
      LowerTrimEnd(s[..|s| - 1]);
    }
  }

  /** Trimming and lower-casing commute: neither touches what the other acts on. */
  lemma LowerTrim(s: string)
    ensures Lower(Trim(s)) == Trim(Lower(s))
  {
    LowerTrimStart(s);
    LowerTrimEnd(TrimStart(s));
  }

  /**
   * Two strings that differ only in letter case are the same once trimmed and
   * lower-cased.
   */
  lemma NormalizedCaseInsensitive(a: string, b: string)
    requires Lower(a) == Lower(b)
    ensures Lower(Trim(a)) == Lower(Trim(b))
  {
    LowerTrim(a);
    LowerTrim(b);
  }

  /** `includes`: `needle` occurs in `hay` as a contiguous run of characters. */
  predicate Contains(hay: string, needle: string)
  {
    exists i :: 0 <= i <= |hay| - |needle| && hay[i..][..|needle|] == needle
  }

  /** `join(sep)`: the pieces in order with `sep` between neighbours. */
  function Join(xs: seq<string>, sep: string): string
  {
    if xs == [] then []
    else if |xs| == 1 then xs[0]
    else xs[0] + sep + Join(xs[1..], sep)
  }

  /** `split(sep)` for a one-character separator: the runs between separators, empty ones included. */
  function Split(s: string, sep: char): (r: seq<string>)
    ensures |r| >= 1
  {
    if s == [] then [[]]
    else if s[0] == sep then [[]] + Split(s[1..], sep)
    else
      var rest := Split(s[1..], sep);
      [[s[0]] + rest[0]] + rest[1..]
  }

  /** A string without the separator is a single piece. */
  lemma {:induction false} SplitNoSep(x: string, sep: char)
    requires sep !in x
    ensures Split(x, sep) == [x]
  {
    if x != [] {
      assert x[0] in x;
      SplitNoSep(x[1..], sep);
      assert [x[0]] + x[1..] == x;
    }
  }

  /** A separator-free run followed by the separator is split off as the first piece. */
  lemma {:induction false} SplitFirst(x: string, sep: char, t: string)
    requires sep !in x
    ensures Split(x + [sep] + t, sep) == [x] + Split(t, sep)
  {
    if x == [] {
      assert x + [sep] + t == [sep] + t;
      assert ([sep] + t)[1..] == t;
    } else {
      assert (x + [sep] + t)[1..] == x[1..] + [sep] + t;
      SplitFirst(x[1..], sep, t);
      assert [x[0]] + x[1..] == x;
    }
  }

  /** Splitting undoes joining when no piece contains the separator. */
  lemma {:induction false} SplitJoin(xs: seq<string>, sep: char)
    requires xs != []
    requires forall k :: 0 <= k < |xs| ==> sep !in xs[k]
    ensures Split(Join(xs, [sep]), sep) == xs
  {
    if |xs| == 1 {
      SplitNoSep(xs[0], sep);
    } else {
      SplitJoin(xs[1..], sep);
      SplitFirst(xs[0], sep, Join(xs[1..], [sep]));
      assert [xs[0]] + xs[1..] == xs;
    }
  }

  /** Lower-casing works character by character, so it distributes over concatenation. */
  lemma LowerAppend(a: string, b: string)
    ensures Lower(a + b) == Lower(a) + Lower(b)
  {
    assert forall i :: 0 <= i < |a + b| ==> Lower(a + b)[i] == (Lower(a) + Lower(b))[i];
  }

  /** Lower-casing a joined string is joining the lower-cased pieces. */
  lemma {:induction false} LowerJoin(xs: seq<string>, sep: string)
    ensures Lower(Join(xs, sep)) == Join(LowerAll(xs), Lower(sep))
  {
    if |xs| > 1 {
      LowerJoin(xs[1..], sep);
      assert LowerAll(xs[1..]) == LowerAll(xs)[1..];
      LowerAppend(xs[0], sep);
      LowerAppend(xs[0] + sep, Join(xs[1..], sep));
    }
  }

  function LowerAll(xs: seq<string>): (r: seq<string>)
    ensures |r| == |xs| && forall k :: 0 <= k < |xs| ==> r[k] == Lower(xs[k])
  {
    seq(|xs|, k requires 0 <= k < |xs| => Lower(xs[k]))
  }

  /** A string occurring in a middle part occurs in the whole. */
  lemma ContainsInfix(a: string, b: string, c: string, needle: string)
    requires Contains(b, needle)
    ensures Contains(a + b + c, needle)
  {
    var i :| 0 <= i <= |b| - |needle| && b[i..][..|needle|] == needle;
    assert (a + b + c)[|a| + i..][..|needle|] == b[i..][..|needle|];
  }

  /** Every piece of a join stands in it whole. */
  lemma {:induction false} JoinInfix(xs: seq<string>, sep: string, k: int) returns (before: string, after: string)
    requires 0 <= k < |xs|
    ensures Join(xs, sep) == before + xs[k] + after
  {
    if |xs| == 1 {
      before, after := [], [];
    } else if k == 0 {
      before, after := [], sep + Join(xs[1..], sep);
    } else {
      var b, a := JoinInfix(xs[1..], sep, k - 1);
      before, after := xs[0] + sep + b, a;
    }
  }

  /** No occurrence of the character `a` immediately followed by `b`. */
  predicate NoPair(s: string, a: char, b: char)
  {
    forall i :: 0 <= i < |s| - 1 ==> !(s[i] == a && s[i + 1] == b)
  }

  /** A string without the first two characters of `needle` side by side does not contain `needle`. */
  lemma NoPairNotContains(s: string, needle: string)
    requires |needle| >= 2 && NoPair(s, needle[0], needle[1])
    ensures !Contains(s, needle)
  {
    forall i | 0 <= i <= |s| - |needle|
      ensures s[i..][..|needle|] != needle
    {
      assert s[i..][..|needle|][0] == s[i] && s[i..][..|needle|][1] == s[i + 1];
    }
  }

  lemma NoPairConcat(x: string, y: string, a: char, b: char)
    requires NoPair(x, a, b) && NoPair(y, a, b)
    requires x == [] || y == [] || !(x[|x| - 1] == a && y[0] == b)
    ensures NoPair(x + y, a, b)
  {
    forall i | 0 <= i < |x + y| - 1
      ensures !((x + y)[i] == a && (x + y)[i + 1] == b)
    {
      if i < |x| - 1 {
        assert (x + y)[i] == x[i] && (x + y)[i + 1] == x[i + 1];
      } else if i >= |x| {
        assert (x + y)[i] == y[i - |x|] && (x + y)[i + 1] == y[i + 1 - |x|];
      }
    }
  }

  /** Joining pieces free of the pair with a separator free of both characters keeps it absent. */
  lemma {:induction false} NoPairJoin(xs: seq<string>, sep: string, a: char, b: char)
    requires sep != [] && a !in sep && b !in sep
    requires forall k :: 0 <= k < |xs| ==> NoPair(xs[k], a, b)
    ensures NoPair(Join(xs, sep), a, b)
  {
    if |xs| > 1 {
      NoPairJoin(xs[1..], sep, a, b);
      NoPairConcat(xs[0], sep, a, b);
      NoPairConcat(xs[0] + sep, Join(xs[1..], sep), a, b);
    }
  }
}
