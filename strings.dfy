/** Text helpers shared by the parser, the lexer and the path helpers.
    Strings are sequences of characters; the model never encodes them. */
module Strings {
  import opened Wrappers

  /** Python's `str.isspace` for one character (the set `str.split()` and
      `str.strip()` use). */
  predicate IsPythonSpace(c: char)
  {
    c == ' ' || c == '\t' || c == '\n' || c == '\r' || c == '\U{0b}' || c == '\U{0c}'
    || ('\U{1c}' <= c <= '\U{1f}') || c == '\U{85}' || c == '\U{a0}' || c == '\U{1680}'
    || ('\U{2000}' <= c <= '\U{200a}') || c == '\U{2028}' || c == '\U{2029}'
    || c == '\U{202f}' || c == '\U{205f}' || c == '\U{3000}'
  }

  /** Rust's `char::is_whitespace` (the set `str::split_whitespace` uses). */
  predicate IsRustWhitespace(c: char)
  {
    c == ' ' || c == '\t' || c == '\n' || c == '\r' || c == '\U{0b}' || c == '\U{0c}'
    || c == '\U{85}' || c == '\U{a0}' || c == '\U{1680}'
    || ('\U{2000}' <= c <= '\U{200a}') || c == '\U{2028}' || c == '\U{2029}'
    || c == '\U{202f}' || c == '\U{205f}' || c == '\U{3000}'
  }

  predicate NoneWhere(s: string, sep: char -> bool)
  {
    forall k :: 0 <= k < |s| ==> !sep(s[k])
  }

  predicate StartsWith(s: string, c: char)
  {
    |s| > 0 && s[0] == c
  }

  predicate EndsWith(s: string, c: char)
  {
    |s| > 0 && s[|s| - 1] == c
  }

  predicate HasSuffix(s: string, suffix: string)
  {
    |suffix| <= |s| && s[|s| - |suffix|..] == suffix
  }

  /** Index of the first occurrence of `c` (Python `str.find`, without the -1). */
  function FindFirst(s: string, c: char): (r: Option<nat>)
    ensures r.Some? ==> r.value < |s|
  {
    if |s| == 0 then None
    else if s[0] == c then Some(0)
    else match FindFirst(s[1..], c)
      case None => None
      case Some(k) => Some(k + 1)
  }

  /** `FindFirst` fails exactly when `c` is absent, and otherwise finds its
      first occurrence. */
  lemma {:induction false} FindFirstSpec(s: string, c: char)
    ensures FindFirst(s, c).None? <==> c !in s
    ensures FindFirst(s, c).Some? ==> s[FindFirst(s, c).value] == c && c !in s[..FindFirst(s, c).value]
    decreases |s|
  {
    if |s| > 0 && s[0] != c {
      FindFirstSpec(s[1..], c);
      assert s == [s[0]] + s[1..];
      if FindFirst(s, c).Some? {
        var k := FindFirst(s[1..], c).value;
        assert s[..k + 1] == [s[0]] + s[1..][..k];
      }
    }
  }

  /** Index of the last occurrence of `c` (`rfind` in Python and Rust). */
  function FindLast(s: string, c: char): (r: Option<nat>)
    ensures r.None? <==> c !in s
    ensures r.Some? ==> r.value < |s| && s[r.value] == c && c !in s[r.value + 1..]
    ensures r.Some? ==> forall k :: r.value < k < |s| ==> s[k] != c
  {
    if |s| == 0 then None
    else if s[|s| - 1] == c then Some(|s| - 1)
    else
      assert s == s[..|s| - 1] + [s[|s| - 1]];
      FindLast(s[..|s| - 1], c)
  }

  /** Index of the first element equal to `x` in a sequence (Python `list.index`). */
  function IndexOf<T(==)>(s: seq<T>, x: T): (r: Option<nat>)
    ensures r.None? <==> x !in s
    ensures r.Some? ==> r.value < |s| && s[r.value] == x && x !in s[..r.value]
  {
    if |s| == 0 then None
    else if s[0] == x then Some(0)
    else match IndexOf(s[1..], x)
      case None => None
      case Some(k) => Some(k + 1)
  }

  /** Number of leading characters of `s` that satisfy `sep`. */
  function LeadingCount(s: string, sep: char -> bool): (n: nat)
    ensures n <= |s|
    ensures n < |s| ==> !sep(s[n])
  {
    if |s| == 0 || !sep(s[0]) then 0 else 1 + LeadingCount(s[1..], sep)
  }

  /** Number of leading characters of `s` that do not satisfy `sep`. */
  function WordLength(s: string, sep: char -> bool): (n: nat)
    ensures n <= |s|
    ensures forall k :: 0 <= k < n ==> !sep(s[k])
    ensures n < |s| ==> sep(s[n])
  {
    if |s| == 0 || sep(s[0]) then 0 else 1 + WordLength(s[1..], sep)
  }

  /** Splitting on runs of separator characters, dropping empty words
      (Python `str.split()`, Rust `str::split_whitespace`). */
  function SplitWhere(s: string, sep: char -> bool): (words: seq<string>)
    ensures forall w {:trigger w in words} :: w in words ==> |w| > 0 && NoneWhere(w, sep)
    decreases |s|
  {
    var i := LeadingCount(s, sep);
    if i == |s| then []
    else
      var n := WordLength(s[i..], sep);
      assert n > 0 && NoneWhere(s[i..i + n], sep) by {
        assert forall k :: 0 <= k < n ==> s[i..i + n][k] == s[i..][k];
      }
      [s[i..i + n]] + SplitWhere(s[i + n..], sep)
  }

  /** A word followed by a separator is exactly that word long. */
  lemma {:induction false} WordLengthBefore(a: string, rest: string, sep: char -> bool)
    requires NoneWhere(a, sep) && |rest| > 0 && sep(rest[0])
    ensures WordLength(a + rest, sep) == |a|
    decreases |a|
  {
    if |a| == 0 {
      assert a + rest == rest;
    } else {
      assert (a + rest)[0] == a[0];
      assert (a + rest)[1..] == a[1..] + rest;
      WordLengthBefore(a[1..], rest, sep);
    }
  }

  /** A word with no separator is all one word. */
  lemma {:induction false} WordLengthWhole(b: string, sep: char -> bool)
    requires NoneWhere(b, sep)
    ensures WordLength(b, sep) == |b|
    decreases |b|
  {
    if |b| > 0 {
      WordLengthWhole(b[1..], sep);
    }
  }

  /** One separator and then a word split into that word. */
  lemma SplitWhereAfter(c: char, b: string, sep: char -> bool)
    requires |b| > 0 && sep(c) && NoneWhere(b, sep)
    ensures SplitWhere([c] + b, sep) == [b]
  {
    var rest := [c] + b;
    assert rest[1..] == b;
    assert LeadingCount(b, sep) == 0;
    assert LeadingCount(rest, sep) == 1;
    WordLengthWhole(b, sep);
    assert rest[1 + |b|..] == [];
    assert rest[1..1 + |b|] == b;
  }

  /** Two words with one separator between them split into those words. */
  lemma SplitWhereTwo(a: string, c: char, b: string, sep: char -> bool)
    requires |a| > 0 && |b| > 0 && sep(c)
    requires NoneWhere(a, sep) && NoneWhere(b, sep)
    ensures SplitWhere(a + [c] + b, sep) == [a, b]
  {
    var s := a + [c] + b;
    var rest := [c] + b;
    assert s == a + rest;
    assert s[0] == a[0];
    assert LeadingCount(s, sep) == 0;
    assert s[0..] == s;
    WordLengthBefore(a, rest, sep);
    assert s[0..|a|] == a;
    assert s[|a|..] == rest;
    SplitWhereAfter(c, b, sep);
  }

  /** Removal of leading and trailing separator characters (Python `str.strip()`). */
  function Strip(s: string, sep: char -> bool): (r: string)
    ensures |r| <= |s|
    ensures |r| > 0 ==> !sep(r[0]) && !sep(r[|r| - 1])
  {
    var i := LeadingCount(s, sep);
    TrimEnd(s[i..], sep)
  }

  function TrimEnd(s: string, sep: char -> bool): (r: string)
    ensures |r| <= |s| && r == s[..|r|]
    ensures |r| > 0 ==> !sep(r[|r| - 1])
    ensures forall k :: |r| <= k < |s| ==> sep(s[k])
  {
    if |s| == 0 || !sep(s[|s| - 1]) then s else TrimEnd(s[..|s| - 1], sep)
  }

  /** Splitting on every occurrence of one character, keeping empty pieces
      (Rust `str::split(' ')`). */
  function SplitOn(s: string, c: char): (parts: seq<string>)
    ensures |parts| >= 1
  {
    match FindFirst(s, c)
    case None => [s]
    case Some(k) => [s[..k]] + SplitOn(s[k + 1..], c)
  }

  /** Text without the separator is one piece. */
  lemma SplitOnWhole(s: string, c: char)
    requires c !in s
    ensures SplitOn(s, c) == [s]
  {
    FindFirstSpec(s, c);
  }

  /** No piece holds the separator. */
  lemma {:induction false} SplitOnParts(s: string, c: char)
    ensures forall i :: 0 <= i < |SplitOn(s, c)| ==> c !in SplitOn(s, c)[i]
    decreases |s|
  {
    FindFirstSpec(s, c);
    match FindFirst(s, c)
    case None =>
    case Some(k) =>
      SplitOnParts(s[k + 1..], c);
  }

  /** The pieces joined back with the separator between them. */
  function JoinWith(parts: seq<string>, c: char): string
    requires |parts| >= 1
  {
    if |parts| == 1 then parts[0] else parts[0] + [c] + JoinWith(parts[1..], c)
  }

  /** Splitting on a character and joining with it again gives back the text. */
  lemma {:induction false} SplitOnRoundTrip(s: string, c: char)
    ensures JoinWith(SplitOn(s, c), c) == s
    decreases |s|
  {
    var f := FindFirst(s, c);
    FindFirstSpec(s, c);
    if f.Some? {
      var k := f.value;
      SplitOnStep(s, c, k);
      SplitOnRoundTrip(s[k + 1..], c);
      JoinAround(s, k, SplitOn(s[k + 1..], c), c);
    } else {
      assert SplitOn(s, c) == [s];
    }
  }

  lemma SplitOnStep(s: string, c: char, k: nat)
    requires FindFirst(s, c) == Some(k)
    ensures SplitOn(s, c) == [s[..k]] + SplitOn(s[k + 1..], c)
  {
  }

  /** Joining the text before position `k` with pieces that join to the text
      after it gives back the whole text, when `k` holds the separator. */
  lemma JoinAround(s: string, k: nat, rest: seq<string>, c: char)
    requires k < |s| && s[k] == c
    requires |rest| >= 1 && JoinWith(rest, c) == s[k + 1..]
    ensures JoinWith([s[..k]] + rest, c) == s
  {
    assert ([s[..k]] + rest)[1..] == rest;
    assert s == s[..k] + [c] + s[k + 1..];
  }

  /** Splitting `a c b` on `c`, where neither side holds a `c`, gives the two sides. */
  lemma SplitOnPair(a: string, b: string, c: char)
    requires c !in a && c !in b
    ensures SplitOn(a + [c] + b, c) == [a, b]
  {
    var s := a + [c] + b;
    FindFirstAt(s, c, |a|);
    SplitOnStep(s, c, |a|);
    assert s[..|a|] == a;
    assert s[|a| + 1..] == b;
    SplitOnWhole(b, c);
  }

  /** `FindFirst` finds the first occurrence, wherever it is. */
  lemma {:induction false} FindFirstAt(s: string, c: char, i: nat)
    requires i < |s| && s[i] == c && c !in s[..i]
    ensures FindFirst(s, c) == Some(i)
  {
    if i > 0 {
      assert s[0] == s[..i][0];
      assert s[1..][..i - 1] == s[1..i];
      assert forall k :: 0 <= k < i - 1 ==> s[1..i][k] == s[..i][k + 1];
      FindFirstAt(s[1..], c, i - 1);
    }
  }

  function DigitChar(d: nat): (c: char)
    requires d < 10
    ensures '0' <= c <= '9'
  {
    ['0', '1', '2', '3', '4', '5', '6', '7', '8', '9'][d]
  }

  /** Decimal text of a natural number, as Python's `str(n)` and `format` print it. */
  function NatToString(n: nat): (s: string)
    ensures |s| >= 1
    ensures forall k :: 0 <= k < |s| ==> '0' <= s[k] <= '9'
    decreases n
  {
    if n < 10 then [DigitChar(n)] else NatToString(n / 10) + [DigitChar(n % 10)]
  }

  lemma DigitCharInjective(a: nat, b: nat)
    requires a < 10 && b < 10 && DigitChar(a) == DigitChar(b)
    ensures a == b
  {
  }

  lemma {:induction false} NatToStringShort(n: nat)
    ensures |NatToString(n)| == 1 <==> n < 10
  {
    if n >= 10 {
      assert |NatToString(n)| == |NatToString(n / 10)| + 1;
    }
  }

  /** Two different numbers never print the same: the printed form is injective. */
  lemma {:induction false} NatToStringInjective(a: nat, b: nat)
    requires NatToString(a) == NatToString(b)
    ensures a == b
    decreases a
  {
    NatToStringShort(a);
    NatToStringShort(b);
    if a < 10 {
      DigitCharInjective(a, b);
    } else {
      var sa, sb := NatToString(a), NatToString(b);
      assert sa == NatToString(a / 10) + [DigitChar(a % 10)];
      assert sb == NatToString(b / 10) + [DigitChar(b % 10)];
      assert sa[|sa| - 1] == DigitChar(a % 10) && sb[|sb| - 1] == DigitChar(b % 10);
      DigitCharInjective(a % 10, b % 10);
      assert NatToString(a / 10) == sa[..|sa| - 1] == sb[..|sb| - 1] == NatToString(b / 10);
      NatToStringInjective(a / 10, b / 10);
    }
  }

  /** Python `str.replace(old, new)`: every non-overlapping occurrence of `pat`,
      scanning left to right, is replaced. */
  function ReplaceAll(s: string, pat: string, rep: string): (r: string)
    requires |pat| > 0
    decreases |s|
  {
    if |s| < |pat| then s
    else if s[..|pat|] == pat then rep + ReplaceAll(s[|pat|..], pat, rep)
    else [s[0]] + ReplaceAll(s[1..], pat, rep)
  }

}
