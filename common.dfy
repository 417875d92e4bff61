/**
 * Values and string operations of the JavaScript runtime that the portal's
 * components lean on: optional values, `trim`, `startsWith`, `includes`,
 * `indexOf`, `split`/`join` on a one-character separator, ASCII lower-casing
 * and the decimal rendering of integers (`String(n)`, template literals).
 * Strings are sequences of Unicode scalar values.
 */
module Common {

  /** `T | null | undefined`, when the difference between null and undefined does not matter. */
  datatype Option<T> = None | Some(value: T)

  /** An optional string is truthy when it is present and not empty. */
  predicate PresentText(o: Option<string>) { o.Some? && o.value != "" }

  /** `o || d` for an optional string. */
  function OrText(o: Option<string>, d: string): (r: string)
    ensures PresentText(o) ==> r == o.value
    ensures !PresentText(o) ==> r == d
  {
    if o.Some? && o.value != "" then o.value else d
  }

  /** `localStorage.getItem(key)` on a storage map: null (None) for a missing key. */
  function StoredText(storage: map<string, string>, key: string): (r: Option<string>)
    ensures r.Some? <==> key in storage
    ensures r.Some? ==> r.value == storage[key]
  {
    if key in storage then Some(storage[key]) else None
  }

  // ---------------------------------------------------------------- trim

  /** The characters `String.prototype.trim` removes: WhiteSpace and LineTerminator of ECMAScript. */
  predicate IsWhitespace(c: char)
  {
    c == '\t' || c == '\n' || c == '\U{000B}' || c == '\U{000C}' || c == '\r' || c == ' ' ||
    c == '\U{00A0}' || c == '\U{1680}' || ('\U{2000}' <= c <= '\U{200A}') ||
    c == '\U{2028}' || c == '\U{2029}' || c == '\U{202F}' || c == '\U{205F}' || c == '\U{3000}' ||
    c == '\U{FEFF}'
  }

  ghost predicate AllWhitespace(s: string)
  {
    forall i :: 0 <= i < |s| ==> IsWhitespace(s[i])
  }

  /** Drops the leading whitespace: the result is a suffix, everything dropped is whitespace. */
  function TrimStart(s: string): (r: string)
    ensures |r| <= |s| && r == s[|s| - |r|..]
    ensures r == "" || !IsWhitespace(r[0])
    ensures forall i :: 0 <= i < |s| - |r| ==> IsWhitespace(s[i])
  {
    if s != [] && IsWhitespace(s[0]) then TrimStart(s[1..]) else s
  }

  /** Drops the trailing whitespace: the result is a prefix, everything dropped is whitespace. */
  function TrimEnd(s: string): (r: string)
    ensures |r| <= |s| && r == s[..|r|]
    ensures r == "" || !IsWhitespace(r[|r| - 1])
    ensures forall i :: |r| <= i < |s| ==> IsWhitespace(s[i])
  {
    if s != [] && IsWhitespace(s[|s| - 1]) then TrimEnd(s[..|s| - 1]) else s
  }

  /** `s.trim()` */
  function Trim(s: string): string
  {
    TrimEnd(TrimStart(s))
  }

  /** A string trims to "" exactly when every character of it is whitespace. */
  lemma TrimEmptyIff(s: string)
    ensures Trim(s) == "" <==> AllWhitespace(s)
  {
    var t := TrimStart(s);
    assert t != "" ==> t[0] == s[|s| - |t|];
    assert forall i :: |s| - |t| <= i < |s| ==> s[i] == t[i - (|s| - |t|)];
  }

  /** Trimming removes no character that is not whitespace: a trimmed string is its own trim. */
  lemma {:induction false} TrimIdempotent(s: string)
    ensures Trim(Trim(s)) == Trim(s)
  {
    var t := Trim(s);
    if t != "" {
      assert !IsWhitespace(t[|t| - 1]);
      var u := TrimStart(s);
      assert t == u[..|t|];
      assert !IsWhitespace(t[0]);
      assert TrimStart(t) == t;
    }
  }

  // ---------------------------------------------------------------- search

  ghost predicate OccursAt(s: string, pat: string, i: int)
  {
    0 <= i && i + |pat| <= |s| && s[i..i + |pat|] == pat
  }

  /** The first position at or after k where pat occurs in s. */
  function IndexFrom(s: string, pat: string, k: nat): (r: Option<nat>)
    decreases |s| - k
    ensures r.Some? ==> k <= r.value && OccursAt(s, pat, r.value)
    ensures r.Some? ==> forall j :: k <= j < r.value ==> !OccursAt(s, pat, j)
    ensures r.None? ==> forall j :: k <= j ==> !OccursAt(s, pat, j)
  {
    if k + |pat| > |s| then None
    else if s[k..k + |pat|] == pat then Some(k)
    else IndexFrom(s, pat, k + 1)
  }

  /** `s.indexOf(pat)`, with None for -1. */
  function IndexOf(s: string, pat: string): (r: Option<nat>)
    ensures r.Some? ==> OccursAt(s, pat, r.value) && forall j :: 0 <= j < r.value ==> !OccursAt(s, pat, j)
    ensures r.None? ==> forall j :: !OccursAt(s, pat, j)
  {
    IndexFrom(s, pat, 0)
  }

  /** A prefix that ends before the first occurrence holds no occurrence itself. */
  lemma NoOccurrenceInPrefix(s: string, pat: string, i: nat)
    requires i <= |s|
    requires forall j :: 0 <= j < i ==> !OccursAt(s, pat, j)
    ensures forall j :: 0 <= j < i ==> !OccursAt(s[..i], pat, j)
  {
    forall j | 0 <= j < i
      ensures !OccursAt(s[..i], pat, j)
    {
      assert !OccursAt(s, pat, j);
      if j + |pat| <= i {
        assert s[..i][j..j + |pat|] == s[j..j + |pat|];
      }
    }
  }

  /** `s.includes(pat)` */
  predicate Contains(s: string, pat: string)
    ensures Contains(s, pat) <==> exists i :: OccursAt(s, pat, i)
  {
    IndexOf(s, pat).Some?
  }

  /** `s.startsWith(p)` */
  predicate StartsWith(s: string, p: string)
  {
    |p| <= |s| && s[..|p|] == p
  }

  lemma StartsWithConcat(p: string, s: string)
    ensures StartsWith(p + s, p)
  {
    assert (p + s)[..|p|] == p;
  }

  // ---------------------------------------------------------------- split and join

  function IndexOfChar(s: string, c: char): (r: Option<nat>)
    ensures r.Some? ==> r.value < |s| && s[r.value] == c && c !in s[..r.value]
    ensures r.None? ==> c !in s
  {
    if s == [] then None
    else if s[0] == c then Some(0)
    else
      var r := IndexOfChar(s[1..], c);
      if r.None? then None
      else
        assert s[..r.value + 1] == [s[0]] + s[1..][..r.value];
        Some(r.value + 1)
  }

  /** `s.split(sep)` for a one-character separator: never empty, no piece holds the separator. */
  function Split(s: string, sep: char): (parts: seq<string>)
    decreases |s|
    ensures |parts| >= 1
    ensures forall i :: 0 <= i < |parts| ==> sep !in parts[i]
  {
    match IndexOfChar(s, sep)
    case None => [s]
    case Some(i) => [s[..i]] + Split(s[i + 1..], sep)
  }

  /** `parts.join(sep)` */
  function Join(parts: seq<string>, sep: string): string
  {
    if |parts| == 0 then ""
    else if |parts| == 1 then parts[0]
    else parts[0] + sep + Join(parts[1..], sep)
  }

  /** Splitting at the first separator: a separator-free head followed by the split of the rest. */
  lemma SplitCons(p: string, sep: char, rest: string)
    requires sep !in p
    ensures Split(p + [sep] + rest, sep) == [p] + Split(rest, sep)
  {
    var s := p + [sep] + rest;
    var r := IndexOfChar(s, sep);
    assert s[|p|] == sep;
    assert forall j :: 0 <= j < |p| ==> s[j] == p[j];
    assert r == Some(|p|);
    assert s[..|p|] == p;
    assert s[|p| + 1..] == rest;
  }

  /** Joining the pieces of a split gives back the string. */
  lemma {:induction false} JoinSplit(s: string, sep: char)
    decreases |s|
    ensures Join(Split(s, sep), [sep]) == s
  {
    match IndexOfChar(s, sep)
    case None =>
    case Some(i) =>
      var rest := Split(s[i + 1..], sep);
      var parts := [s[..i]] + rest;
      assert Split(s, sep) == parts;
      assert parts[0] == s[..i] && parts[1..] == rest && |parts| >= 2;
      assert Join(parts, [sep]) == s[..i] + [sep] + Join(rest, [sep]);
      JoinSplit(s[i + 1..], sep);
      assert s == s[..i] + [sep] + s[i + 1..];
  }

  /** Splitting a join of separator-free pieces gives back the pieces. */
  lemma {:induction false} SplitJoin(parts: seq<string>, sep: char)
    requires |parts| >= 1
    requires forall i :: 0 <= i < |parts| ==> sep !in parts[i]
    ensures Split(Join(parts, [sep]), sep) == parts
  {
    if |parts| == 1 {
      assert IndexOfChar(parts[0], sep).None?;
    } else {
      var tail := Join(parts[1..], [sep]);
      assert Join(parts, [sep]) == parts[0] + [sep] + tail;
      assert forall i :: 0 <= i < |parts[1..]| ==> sep !in parts[1..][i] by {
        forall i | 0 <= i < |parts[1..]| ensures sep !in parts[1..][i] {
          assert parts[1..][i] == parts[i + 1];
        }
      }
      SplitJoin(parts[1..], sep);
      SplitCons(parts[0], sep, tail);
      assert parts == [parts[0]] + parts[1..];
    }
  }

  // ---------------------------------------------------------------- character classes

  /** Whether some character of `s` is in the class `p` (a regex `/[...]/.test(s)`). */
  predicate AnyChar(s: string, p: char -> bool)
  {
    exists i :: 0 <= i < |s| && p(s[i])
  }

  // ---------------------------------------------------------------- case

  function LowerChar(c: char): char
  {
    if 'A' <= c <= 'Z' then (c as int + 32) as char else c
  }

  /** `s.toLowerCase()` restricted to ASCII letters. */
  function ToLowerAscii(s: string): (r: string)
    ensures |r| == |s|
    ensures forall i :: 0 <= i < |s| ==> r[i] == LowerChar(s[i])
  {
    seq(|s|, i requires 0 <= i < |s| => LowerChar(s[i]))
  }

  // ---------------------------------------------------------------- numbers

  function DigitChar(d: nat): char
    requires d < 10
  {
    "0123456789"[d]
  }

  predicate IsDigit(c: char) { '0' <= c <= '9' }

  /** `String(n)` for a non-negative integer: decimal digits, no leading zero. */
  function NatToString(n: nat): (r: string)
    ensures |r| >= 1 && forall i :: 0 <= i < |r| ==> IsDigit(r[i])
    ensures |r| > 1 ==> r[0] != '0'
  {
    if n < 10 then [DigitChar(n)] else NatToString(n / 10) + [DigitChar(n % 10)]
  }

  /** `String(i)` for an integer. */
  function IntToString(i: int): string
  {
    if i < 0 then "-" + NatToString(-i) else NatToString(i)
  }

  /** Reads a string of decimal digits back as a number. */
  function ParseDigits(s: string): nat
    requires forall i :: 0 <= i < |s| ==> IsDigit(s[i])
  {
    if s == [] then 0
    else
      assert IsDigit(s[|s| - 1]);
      ParseDigits(s[..|s| - 1]) * 10 + (s[|s| - 1] as int - '0' as int)
  }

  /** The decimal rendering of a number reads back as that number. */
  lemma {:induction false} ParseNatToString(n: nat)
    ensures ParseDigits(NatToString(n)) == n
  {
    if n >= 10 {
      ParseNatToString(n / 10);
      var s := NatToString(n);
      assert s[..|s| - 1] == NatToString(n / 10);
    }
  }

  /** Distinct numbers render as distinct strings. */
  lemma NatToStringInjective(m: nat, n: nat)
    requires NatToString(m) == NatToString(n)
    ensures m == n
  {
    ParseNatToString(m);
    ParseNatToString(n);
  }
  // ---------------------------------------------------------------- filter

  /** `xs.filter(p)`: the elements satisfying p, in their original order. */
  function Filter<T>(xs: seq<T>, p: T -> bool): (r: seq<T>)
    ensures |r| <= |xs|
    ensures forall i :: 0 <= i < |r| ==> r[i] in xs && p(r[i])
    ensures forall i :: 0 <= i < |xs| && p(xs[i]) ==> xs[i] in r
  {
    if xs == [] then [] else (if p(xs[0]) then [xs[0]] else []) + Filter(xs[1..], p)
  }

  /** xs can be obtained from ys by deleting elements: order is kept. */
  ghost predicate IsSubsequence<T>(xs: seq<T>, ys: seq<T>)
    decreases |ys|
  {
    xs == [] || (ys != [] && ((xs[0] == ys[0] && IsSubsequence(xs[1..], ys[1..])) || IsSubsequence(xs, ys[1..])))
  }

  /** Filtering keeps the relative order of what it keeps. */
  lemma {:induction false} FilterIsSubsequence<T>(xs: seq<T>, p: T -> bool)
    ensures IsSubsequence(Filter(xs, p), xs)
  {
    if xs != [] {
      FilterIsSubsequence(xs[1..], p);
      var rest := Filter(xs[1..], p);
      if p(xs[0]) {
        assert Filter(xs, p) == [xs[0]] + rest;
        assert ([xs[0]] + rest)[1..] == rest;
      } else {
        assert Filter(xs, p) == rest;
      }
    }
  }

  /** Filtering when every element passes changes nothing. */
  lemma {:induction false} FilterAll<T>(xs: seq<T>, p: T -> bool)
    requires forall i :: 0 <= i < |xs| ==> p(xs[i])
    ensures Filter(xs, p) == xs
  {
    if xs != [] {
      FilterAll(xs[1..], p);
      assert xs == [xs[0]] + xs[1..];
    }
  }

  /** Filtering when no element passes gives the empty sequence. */
  lemma FilterNone<T>(xs: seq<T>, p: T -> bool)
    requires forall i :: 0 <= i < |xs| ==> !p(xs[i])
    ensures Filter(xs, p) == []
  {
  }

  /** Filtering distributes over concatenation. */
  lemma {:induction false} FilterConcat<T>(a: seq<T>, b: seq<T>, p: T -> bool)
    ensures Filter(a + b, p) == Filter(a, p) + Filter(b, p)
  {
    if a != [] {
      FilterConcat(a[1..], b, p);
      assert (a + b)[1..] == a[1..] + b;
    } else {
      assert a + b == b;
    }
  }

  /** Filtering twice with the same test is filtering once. */
  lemma {:induction false} FilterIdempotent<T>(xs: seq<T>, p: T -> bool)
    ensures Filter(Filter(xs, p), p) == Filter(xs, p)
  {
    FilterAll(Filter(xs, p), p);
  }
}
