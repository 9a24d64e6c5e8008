/** The JavaScript string operations the core relies on, over `seq<char>`:
    `includes`, `startsWith`, `endsWith`, `indexOf`, `replace` with a string
    pattern, `split` on one character, `join`, `trim`, and number printing.
 */
module Strings {
  import opened Wrappers

  predicate StartsWith(s: string, prefix: string) {
    |prefix| <= |s| && s[..|prefix|] == prefix
  }

  predicate EndsWith(s: string, suffix: string) {
    |suffix| <= |s| && s[|s| - |suffix|..] == suffix
  }

  lemma PrefixOfAppend(a: string, b: string)
    ensures StartsWith(a + b, a) && EndsWith(a + b, b)
  {
    assert (a + b)[..|a|] == a;
    assert (a + b)[|a + b| - |b|..] == b;
  }

  lemma Surround(p: string, m: string, q: string)
    ensures StartsWith(p + m + q, p) && EndsWith(p + m + q, q)
  {
    PrefixOfAppend(p + m, q);
    PrefixOfAppend(p, m);
    StartsWithAppend(p + m, q, p);
  }

  lemma EndsWithLastTwo(a: string, b: string, c: string)
    ensures EndsWith(a + b + c, b + c)
  {
    assert a + b + c == a + (b + c);
    PrefixOfAppend(a, b + c);
  }

  lemma StartsWithAppend(s: string, t: string, prefix: string)
    requires StartsWith(s, prefix)
    ensures StartsWith(s + t, prefix)
  {
    assert (s + t)[..|prefix|] == s[..|prefix|];
  }

  /** `s.includes(sub)`. */
  predicate Contains(s: string, sub: string)
    decreases |s|
  {
    StartsWith(s, sub) || (|s| > 0 && Contains(s[1..], sub))
  }

  /** `s.indexOf(sub)`, with `None` standing for -1. */
  function IndexOf(s: string, sub: string): (r: Option<nat>)
    ensures r.Some? ==> r.value + |sub| <= |s| && s[r.value..r.value + |sub|] == sub
    ensures r.Some? ==> forall j :: 0 <= j < r.value ==> !StartsWith(s[j..], sub)
    ensures r.None? <==> !Contains(s, sub)
    decreases |s|
  {
    if StartsWith(s, sub) then Some(0)
    else if |s| == 0 then None
    else
      match IndexOf(s[1..], sub)
      case None => None
      case Some(i) =>
        IndexOfStep(s, sub, i);
        Some(i + 1)
  }

  /** A first match in the tail, when the string itself does not start with
      the pattern, is a first match one position further. */
  lemma IndexOfStep(s: string, sub: string, i: nat)
    requires |s| > 0 && !StartsWith(s, sub)
    requires i + |sub| <= |s| - 1 && s[1..][i..i + |sub|] == sub
    requires forall j :: 0 <= j < i ==> !StartsWith(s[1..][j..], sub)
    ensures i + 1 + |sub| <= |s| && s[i + 1..i + 1 + |sub|] == sub
    ensures forall j :: 0 <= j < i + 1 ==> !StartsWith(s[j..], sub)
  {
    assert s[i + 1..i + 1 + |sub|] == s[1..][i..i + |sub|];
    forall j | 0 <= j < i + 1
      ensures !StartsWith(s[j..], sub)
    {
      if j > 0 {
        assert s[j..] == s[1..][j - 1..];
      }
    }
  }

  /** `s.replace(pattern, replacement)` with a string pattern: only the first
      occurrence is replaced. */
  function ReplaceFirst(s: string, pattern: string, replacement: string): (r: string)
    ensures !Contains(s, pattern) ==> r == s
    ensures Contains(s, pattern) ==>
      exists i :: 0 <= i <= |s| - |pattern| && r == s[..i] + replacement + s[i + |pattern|..]
  {
    match IndexOf(s, pattern)
    case None => s
    case Some(i) => s[..i] + replacement + s[i + |pattern|..]
  }

  /** `s.split(c)` for a one-character separator: never empty. */
  function Split(s: string, c: char): (r: seq<string>)
    ensures |r| >= 1
    decreases |s|
  {
    if |s| == 0 then [""]
    else
      var rest := Split(s[1..], c);
      if s[0] == c then [""] + rest
      else [[s[0]] + rest[0]] + rest[1..]
  }

  /** `parts.join(sep)`. */
  function Join(parts: seq<string>, sep: string): string
    decreases |parts|
  {
    if |parts| == 0 then ""
    else if |parts| == 1 then parts[0]
    else parts[0] + sep + Join(parts[1..], sep)
  }

  /** `s.split(c).pop()`: the text after the last `c`. */
  function LastSegment(s: string, c: char): string {
    var parts := Split(s, c);
    parts[|parts| - 1]
  }

  lemma JoinConsHead(a: string, b: string, t: seq<string>, sep: string)
    ensures Join([a + b] + t, sep) == a + Join([b] + t, sep)
  {
    if |t| > 0 {
      assert ([a + b] + t)[1..] == t;
      assert ([b] + t)[1..] == t;
    }
  }

  /** Splitting on `c` and joining with `c` gives back the string. */
  lemma {:induction false} SplitJoin(s: string, c: char)
    ensures Join(Split(s, c), [c]) == s
    decreases |s|
  {
    if |s| > 0 {
      var rest := Split(s[1..], c);
      SplitJoin(s[1..], c);
      if s[0] == c {
        assert ([""] + rest)[1..] == rest;
        assert Join([""] + rest, [c]) == [c] + Join(rest, [c]);
      } else {
        assert [rest[0]] + rest[1..] == rest;
        JoinConsHead([s[0]], rest[0], rest[1..], [c]);
        assert [s[0]] + s[1..] == s;
      }
    }
  }

  /** Splitting a string free of `c` gives the string itself. */
  lemma {:induction false} SplitFree(s: string, c: char)
    requires c !in s
    ensures Split(s, c) == [s]
    decreases |s|
  {
    if |s| > 0 {
      SplitFree(s[1..], c);
      assert [s[0]] + s[1..] == s;
    }
  }

  /** Splitting `p + [c] + t` with `p` free of `c` separates `p` off. */
  lemma {:induction false} SplitAtFirst(p: string, t: string, c: char)
    requires c !in p
    ensures Split(p + [c] + t, c) == [p] + Split(t, c)
    decreases |p|
  {
    var s := p + [c] + t;
    if |p| == 0 {
      assert s == [c] + t;
      assert s[1..] == t;
    } else {
      assert s[1..] == p[1..] + [c] + t;
      SplitAtFirst(p[1..], t, c);
      assert [p[0]] + p[1..] == p;
    }
  }

  /** Joining pieces free of `c` with `c` and splitting on `c` gives back the pieces. */
  lemma {:induction false} JoinSplit(parts: seq<string>, c: char)
    requires |parts| >= 1
    requires forall k :: 0 <= k < |parts| ==> c !in parts[k]
    ensures Split(Join(parts, [c]), c) == parts
    decreases |parts|
  {
    if |parts| == 1 {
      SplitFree(parts[0], c);
    } else {
      JoinSplit(parts[1..], c);
      SplitAtFirst(parts[0], Join(parts[1..], [c]), c);
      assert [parts[0]] + parts[1..] == parts;
    }
  }

  /** No piece of a split contains the separator. */
  lemma {:induction false} SplitPartsFree(s: string, c: char)
    ensures forall k :: 0 <= k < |Split(s, c)| ==> c !in Split(s, c)[k]
    decreases |s|
  {
    if |s| > 0 {
      SplitPartsFree(s[1..], c);
    }
  }

  /** Splitting around a separator splits each side. */
  lemma {:induction false} SplitAround(a: string, t: string, c: char)
    ensures Split(a + [c] + t, c) == Split(a, c) + Split(t, c)
    decreases |a|
  {
    var s := a + [c] + t;
    if |a| == 0 {
      assert s == [c] + t && s[1..] == t;
    } else {
      assert s[1..] == a[1..] + [c] + t;
      SplitAround(a[1..], t, c);
    }
  }

  /** The last two parts of `p c x c y`, with `x` and `y` free of `c`, are `x` and `y`. */
  lemma SplitLastTwo(p: string, x: string, y: string, c: char)
    requires c !in x && c !in y
    ensures var parts := Split(p + [c] + x + [c] + y, c);
      |parts| >= 2 && parts[|parts| - 2..] == [x, y]
  {
    var t := x + [c] + y;
    assert p + [c] + x + [c] + y == p + [c] + t;
    SplitAround(p, t, c);
    SplitAtFirst(x, y, c);
    SplitFree(y, c);
    var h := Split(p, c);
    assert Split(p + [c] + x + [c] + y, c) == h + [x, y];
  }

  /** Removing the first `.git` of a dot-free string followed by `.git` leaves the string. */
  lemma ReplaceDotGitAtEnd(m: string)
    requires '.' !in m
    ensures ReplaceFirst(m + ".git", ".git", "") == m
  {
    DotGitAtEnd(m);
    var t := m + ".git";
    assert t[..|m|] == m && t[|m| + 4..] == [];
  }

  /** A join of two parts. */
  lemma JoinTwo(a: string, b: string, sep: string)
    ensures Join([a, b], sep) == a + sep + b
  {
    assert [a, b][1..] == [b];
  }

  /** `.git` is found first at the end of a string without dots. */
  lemma {:induction false} DotGitAtEnd(s: string)
    requires '.' !in s
    ensures IndexOf(s + ".git", ".git") == Some(|s|)
    decreases |s|
  {
    if |s| == 0 {
      assert s + ".git" == ".git";
    } else {
      assert (s + ".git")[0] == s[0];
      assert !StartsWith(s + ".git", ".git");
      assert (s + ".git")[1..] == s[1..] + ".git";
      DotGitAtEnd(s[1..]);
    }
  }

  /** The whitespace of JavaScript's `\s` and `trim` (WhiteSpace and LineTerminator). */
  predicate IsSpace(ch: char) {
    ch == ' ' || ch == '\t' || ch == '\n' || ch == '\r' || ch == '\U{000B}' || ch == '\U{000C}'
    || ch == '\U{00A0}' || ch == '\U{1680}' || ('\U{2000}' <= ch <= '\U{200A}')
    || ch == '\U{2028}' || ch == '\U{2029}' || ch == '\U{202F}' || ch == '\U{205F}'
    || ch == '\U{3000}' || ch == '\U{FEFF}'
  }

  /** How many whitespace characters `s` starts with. */
  function LeadingSpaces(s: string): (n: nat)
    ensures n <= |s|
    ensures forall k :: 0 <= k < n ==> IsSpace(s[k])
    ensures n < |s| ==> !IsSpace(s[n])
  {
    if |s| > 0 && IsSpace(s[0]) then 1 + LeadingSpaces(s[1..]) else 0
  }

  /** How many whitespace characters `s` ends with. */
  function TrailingSpaces(s: string): (n: nat)
    ensures n <= |s|
    ensures forall k :: |s| - n <= k < |s| ==> IsSpace(s[k])
    ensures n < |s| ==> !IsSpace(s[|s| - n - 1])
  {
    if |s| > 0 && IsSpace(s[|s| - 1]) then 1 + TrailingSpaces(s[..|s| - 1]) else 0
  }

  /** `s.trimStart()`. */
  function TrimStart(s: string): (r: string)
    ensures |r| <= |s| && r == s[|s| - |r|..]
    ensures |r| > 0 ==> !IsSpace(r[0])
    ensures forall k :: 0 <= k < |s| - |r| ==> IsSpace(s[k])
  {
    s[LeadingSpaces(s)..]
  }

  /** `s.trimEnd()`. */
  function TrimEnd(s: string): (r: string)
    ensures |r| <= |s| && r == s[..|r|]
    ensures |r| > 0 ==> !IsSpace(r[|r| - 1])
    ensures forall k :: |r| <= k < |s| ==> IsSpace(s[k])
  {
    s[..|s| - TrailingSpaces(s)]
  }

  /** `s.trim()`. */
  function Trim(s: string): (r: string)
    ensures |r| <= |s|
    ensures |r| > 0 ==> !IsSpace(r[0]) && !IsSpace(r[|r| - 1])
  {
    TrimEnd(TrimStart(s))
  }

  /** A string with no whitespace at its start is its own `trimStart`. */
  lemma TrimStartKeeps(s: string)
    requires |s| == 0 || !IsSpace(s[0])
    ensures TrimStart(s) == s
  {
    assert LeadingSpaces(s) == 0;
  }

  /** A string with no whitespace at either end is its own trim. */
  lemma TrimKeeps(s: string)
    requires |s| == 0 || (!IsSpace(s[0]) && !IsSpace(s[|s| - 1]))
    ensures Trim(s) == s
  {
    TrimStartKeeps(s);
    assert TrailingSpaces(s) == 0;
  }

  /** `path.join(a, b)` without normalisation: an empty segment is skipped. */
  function PathJoin(a: string, b: string): string {
    if b == "" then a else if a == "" then b else a + "/" + b
  }

  function DigitChar(d: nat): char
    requires d < 10
  {
    "0123456789"[d]
  }

  /** Decimal rendering of a non-negative integer (`String(n)`). */
  function NatToString(n: nat): (r: string)
    ensures |r| >= 1
    ensures forall k :: 0 <= k < |r| ==> '0' <= r[k] <= '9'
  {
    if n < 10 then [DigitChar(n)] else NatToString(n / 10) + [DigitChar(n % 10)]
  }

  /** Every position of `s` holds a decimal digit (the regex `^\d+$` when `s` is non-empty). */
  predicate AllDigits(s: string) {
    forall k :: 0 <= k < |s| ==> '0' <= s[k] <= '9'
  }

  /** The value of a run of decimal digits. */
  function DigitsValue(s: string): nat
    requires AllDigits(s)
  {
    if |s| == 0 then 0 else DigitsValue(s[..|s| - 1]) * 10 + (s[|s| - 1] as int - '0' as int)
  }

  /** Reading back a rendered number gives the number. */
  lemma {:induction false} NatToStringRoundTrip(n: nat)
    ensures AllDigits(NatToString(n)) && DigitsValue(NatToString(n)) == n
  {
    var r := NatToString(n);
    DigitCharValue(n % 10);
    if n >= 10 {
      NatToStringRoundTrip(n / 10);
      assert r == NatToString(n / 10) + [DigitChar(n % 10)];
      assert r[..|r| - 1] == NatToString(n / 10) && r[|r| - 1] == DigitChar(n % 10);
    } else {
      assert r == [DigitChar(n)];
    }
  }

  /** A digit character's code is its value past the code of `0`. */
  lemma DigitCharValue(d: nat)
    requires d < 10
    ensures '0' <= DigitChar(d) <= '9' && DigitChar(d) as int - '0' as int == d
  {
  }

  /** The text after the last `c` of `a + [c] + t`, when `t` is free of `c`, is `t`. */
  lemma {:induction false} LastSegmentAfter(a: string, t: string, c: char)
    requires c !in t
    ensures |Split(a + [c] + t, c)| >= 2
    ensures LastSegment(a + [c] + t, c) == t
    decreases |a|
  {
    var s := a + [c] + t;
    if |a| == 0 {
      assert s == [c] + t && s[1..] == t;
      SplitFree(t, c);
    } else {
      assert s[1..] == a[1..] + [c] + t;
      LastSegmentAfter(a[1..], t, c);
    }
  }
}
