/** `sanitizeFilenameSegment` of `src/utils/file-name.ts`: the five rewriting
    passes that make a value safe as one segment of a file name. */
module FileName {
  import opened Strings

  /** The characters of `INVALID_FILENAME_CHARS`: `<>:"/\|?*` and the control
      characters U+0000 to U+001F. */
  predicate InvalidChar(ch: char) {
    ch == '<' || ch == '>' || ch == ':' || ch == '"' || ch == '/' || ch == '\\'
    || ch == '|' || ch == '?' || ch == '*' || ch < ' '
  }

  predicate IsDash(ch: char) {
    ch == '-'
  }

  /** No two neighbouring copies of `c`. */
  predicate NoDouble(s: string, c: char) {
    forall i :: 0 <= i < |s| - 1 ==> !(s[i] == c && s[i + 1] == c)
  }

  predicate NoDoubleDash(s: string) {
    NoDouble(s, '-')
  }

  /** Pass 1: every invalid character becomes `-`. */
  function ReplaceInvalid(s: string): (r: string)
    ensures |r| == |s|
    ensures forall i :: 0 <= i < |s| ==> r[i] == if InvalidChar(s[i]) then '-' else s[i]
  {
    seq(|s|, i requires 0 <= i < |s| => if InvalidChar(s[i]) then '-' else s[i])
  }

  /** The suffix after the leading characters satisfying `p`. */
  function DropWhile(p: char -> bool, s: string): (r: string)
    ensures |r| <= |s| && r == s[|s| - |r|..]
    ensures |r| == 0 || !p(r[0])
    ensures forall k :: 0 <= k < |s| - |r| ==> p(s[k])
    decreases |s|
  {
    if |s| > 0 && p(s[0]) then DropWhile(p, s[1..]) else s
  }

  /** Every maximal run of characters satisfying `p` becomes the one character `c`
      (the `/x+/g` replacements of passes 2 and 3). */
  function ReplaceRuns(s: string, p: char -> bool, c: char): (r: string)
    ensures forall ch :: ch in r ==> ch == c || (ch in s && !p(ch))
    ensures |s| > 0 && !p(s[0]) ==> |r| > 0 && r[0] == s[0]
    ensures p(c) ==> NoDouble(r, c)
    decreases |s|
  {
    if |s| == 0 then ""
    else if p(s[0]) then [c] + ReplaceRuns(DropWhile(p, s), p, c)
    else [s[0]] + ReplaceRuns(s[1..], p, c)
  }

  /** Pass 4: the trailing dots are removed. */
  function StripTrailingDots(s: string): (r: string)
    ensures |r| <= |s| && r == s[..|r|]
    ensures |r| == 0 || r[|r| - 1] != '.'
    ensures forall k :: |r| <= k < |s| ==> s[k] == '.'
    ensures forall ch :: ch in r ==> ch in s
    ensures NoDoubleDash(s) ==> NoDoubleDash(r)
  {
    if |s| > 0 && s[|s| - 1] == '.' then StripTrailingDots(s[..|s| - 1]) else s
  }

  function StripTrailingDashes(s: string): (r: string)
    ensures |r| <= |s| && r == s[..|r|]
    ensures |r| == 0 || r[|r| - 1] != '-'
    ensures forall k :: |r| <= k < |s| ==> s[k] == '-'
  {
    if |s| > 0 && s[|s| - 1] == '-' then StripTrailingDashes(s[..|s| - 1]) else s
  }

  /** A slice keeps single dashes and takes its characters from the whole. */
  lemma SliceKeeps(s: string, a: nat, b: nat)
    requires a <= b <= |s|
    ensures NoDoubleDash(s) ==> NoDoubleDash(s[a..b])
    ensures forall ch :: ch in s[a..b] ==> ch in s
  {
    var t := s[a..b];
    assert forall i :: 0 <= i < |t| ==> t[i] == s[a + i];
  }

  /** Pass 5: the leading and trailing dashes are removed. */
  function StripEdgeDashes(s: string): (r: string)
    ensures |r| == 0 || (r[0] != '-' && r[|r| - 1] != '-')
    ensures exists a, b :: (0 <= a <= b <= |s| && r == s[a..b]
      && (forall k :: 0 <= k < a ==> s[k] == '-') && (forall k :: b <= k < |s| ==> s[k] == '-'))
    ensures forall ch :: ch in r ==> ch in s
    ensures NoDoubleDash(s) ==> NoDoubleDash(r)
  {
    StripEdgeFacts(s);
    StripTrailingDashes(DropWhile(IsDash, s))
  }

  lemma StripEdgeFacts(s: string)
    ensures var r := StripTrailingDashes(DropWhile(IsDash, s));
      && (|r| == 0 || (r[0] != '-' && r[|r| - 1] != '-'))
      && (exists a, b :: (0 <= a <= b <= |s| && r == s[a..b]
        && (forall k :: 0 <= k < a ==> s[k] == '-') && (forall k :: b <= k < |s| ==> s[k] == '-')))
      && (forall ch :: ch in r ==> ch in s)
      && (NoDoubleDash(s) ==> NoDoubleDash(r))
  {
    var d := DropWhile(IsDash, s);
    assert |d| == 0 || !IsDash(d[0]);
    var r := StripTrailingDashes(d);
    EdgeSlice(s, d, r);
  }

  /** A prefix of a suffix of `s` with no dash at either end. */
  lemma EdgeSlice(s: string, d: string, r: string)
    requires |d| <= |s| && d == s[|s| - |d|..]
    requires |r| <= |d| && r == d[..|r|]
    requires |d| == 0 || d[0] != '-'
    requires |r| == 0 || r[|r| - 1] != '-'
    requires forall k :: 0 <= k < |s| - |d| ==> s[k] == '-'
    requires forall k :: |r| <= k < |d| ==> d[k] == '-'
    ensures |r| == 0 || (r[0] != '-' && r[|r| - 1] != '-')
    ensures exists a, b :: (0 <= a <= b <= |s| && r == s[a..b]
      && (forall k :: 0 <= k < a ==> s[k] == '-') && (forall k :: b <= k < |s| ==> s[k] == '-'))
    ensures forall ch :: ch in r ==> ch in s
    ensures NoDoubleDash(s) ==> NoDoubleDash(r)
  {
    var a, b := |s| - |d|, |s| - |d| + |r|;
    assert r == s[a..b];
    assert forall k :: b <= k < |s| ==> s[k] == d[k - a];
    SliceKeeps(s, a, b);
  }

  /** The five passes, before the fallback. */
  function Sanitize(value: string): string {
    StripEdgeDashes(StripTrailingDots(
      ReplaceRuns(ReplaceRuns(ReplaceInvalid(Trim(value)), IsSpace, '-'), IsDash, '-')))
  }

  /** `sanitizeFilenameSegment(value, fallback)`: the passes, or the fallback
      when nothing is left. The fallback defaults to `unknown`. */
  function SanitizeFilenameSegment(value: string, fallback: string): (r: string)
    ensures |Sanitize(value)| > 0 ==> r == Sanitize(value)
    ensures |Sanitize(value)| == 0 ==> r == fallback
    ensures '/' in r ==> r == fallback
  {
    SanitizeClean(value);
    if |Sanitize(value)| > 0 then Sanitize(value) else fallback
  }

  const DefaultFallback := "unknown"

  /** No invalid character and no whitespace. */
  predicate SafeChars(s: string) {
    forall i :: 0 <= i < |s| ==> !InvalidChar(s[i]) && !IsSpace(s[i])
  }

  /** Passes 1 to 3 leave no invalid character, no whitespace and no double dash. */
  lemma RewritesClean(value: string)
    ensures var s3 := ReplaceRuns(ReplaceRuns(ReplaceInvalid(Trim(value)), IsSpace, '-'), IsDash, '-');
      SafeChars(s3) && NoDoubleDash(s3)
  {
    var s1 := ReplaceInvalid(Trim(value));
    InvalidGone(Trim(value));
    var s2 := ReplaceRuns(s1, IsSpace, '-');
    assert !InvalidChar('-') && !IsSpace('-') && IsDash('-');
    assert forall ch :: ch in s2 ==> !InvalidChar(ch) && !IsSpace(ch);
    var s3 := ReplaceRuns(s2, IsDash, '-');
    assert forall ch :: ch in s3 ==> !InvalidChar(ch) && !IsSpace(ch);
    forall i | 0 <= i < |s3|
      ensures !InvalidChar(s3[i]) && !IsSpace(s3[i])
    {
      assert s3[i] in s3;
    }
  }

  lemma InvalidGone(s: string)
    ensures forall ch :: ch in ReplaceInvalid(s) ==> !InvalidChar(ch)
  {
    var r := ReplaceInvalid(s);
    forall ch | ch in r
      ensures !InvalidChar(ch)
    {
      var i :| 0 <= i < |r| && r[i] == ch;
    }
  }

  /** Passes 4 and 5 keep a string's characters safe and its dashes single,
      and leave no dash at either end. */
  lemma StripsClean(s: string)
    requires SafeChars(s) && NoDoubleDash(s)
    ensures var r := StripEdgeDashes(StripTrailingDots(s));
      SafeChars(r) && NoDoubleDash(r) && (|r| == 0 || (r[0] != '-' && r[|r| - 1] != '-'))
  {
    var t := StripTrailingDots(s);
    var r := StripEdgeDashes(t);
    forall i | 0 <= i < |r|
      ensures !InvalidChar(r[i]) && !IsSpace(r[i])
    {
      assert r[i] in r && r[i] in t && r[i] in s;
      var j :| 0 <= j < |s| && s[j] == r[i];
    }
  }

  /** Whatever the input, the passes leave no invalid character, no
      whitespace, no double dash and no dash at either end. */
  lemma SanitizeClean(value: string)
    ensures var r := Sanitize(value);
      && SafeChars(r)
      && NoDoubleDash(r)
      && (|r| == 0 || (r[0] != '-' && r[|r| - 1] != '-'))
  {
    RewritesClean(value);
    StripsClean(ReplaceRuns(ReplaceRuns(ReplaceInvalid(Trim(value)), IsSpace, '-'), IsDash, '-'));
  }

  /** A segment already in the shape the passes produce, and not ending in a
      dot, is returned as it is. */
  predicate Clean(v: string) {
    && |v| > 0
    && SafeChars(v)
    && NoDoubleDash(v)
    && v[0] != '-' && v[|v| - 1] != '-' && v[|v| - 1] != '.'
  }

  lemma {:induction false} ReplaceRunsAbsent(s: string, p: char -> bool, c: char)
    requires forall i :: 0 <= i < |s| ==> !p(s[i])
    ensures ReplaceRuns(s, p, c) == s
    decreases |s|
  {
    if |s| > 0 {
      ReplaceRunsAbsent(s[1..], p, c);
      assert [s[0]] + s[1..] == s;
    }
  }

  lemma {:induction false} ReplaceRunsSingleDashes(s: string)
    requires NoDoubleDash(s)
    ensures ReplaceRuns(s, IsDash, '-') == s
    decreases |s|
  {
    if |s| > 0 {
      var t := s[1..];
      assert NoDoubleDash(t) by {
        assert forall i :: 0 <= i < |t| ==> t[i] == s[i + 1];
      }
      ReplaceRunsSingleDashes(t);
      if s[0] == '-' {
        DashStep(s);
      } else {
        assert ReplaceRuns(s, IsDash, '-') == [s[0]] + ReplaceRuns(t, IsDash, '-');
      }
      assert [s[0]] + t == s;
    }
  }

  /** A single leading dash is rewritten to itself, followed by the rest's rewriting. */
  lemma DashStep(s: string)
    requires |s| > 0 && s[0] == '-' && NoDoubleDash(s)
    ensures ReplaceRuns(s, IsDash, '-') == ['-'] + ReplaceRuns(s[1..], IsDash, '-')
  {
    var t := s[1..];
    assert |t| == 0 || !IsDash(t[0]);
    assert DropWhile(IsDash, t) == t;
    assert DropWhile(IsDash, s) == t;
  }

  lemma SanitizeKeepsClean(v: string)
    requires Clean(v)
    ensures Sanitize(v) == v
    ensures SanitizeFilenameSegment(v, DefaultFallback) == v
  {
    FirstPassesKeep(v);
    assert DropWhile(IsDash, v) == v;
    assert StripTrailingDashes(v) == v;
  }

  /** The first three passes leave a string alone when it has no whitespace,
      no invalid character and no double dash. */
  lemma RewritesKeep(s: string)
    requires NoDoubleDash(s)
    requires forall i :: 0 <= i < |s| ==> !InvalidChar(s[i]) && !IsSpace(s[i])
    ensures ReplaceRuns(ReplaceRuns(ReplaceInvalid(Trim(s)), IsSpace, '-'), IsDash, '-') == s
  {
    if |s| > 0 {
      assert !IsSpace(s[0]) && !IsSpace(s[|s| - 1]);
    }
    TrimKeeps(s);
    assert ReplaceInvalid(s) == s;
    ReplaceRunsAbsent(s, IsSpace, '-');
    ReplaceRunsSingleDashes(s);
  }

  lemma FirstPassesKeep(s: string)
    requires |s| > 0 && NoDoubleDash(s) && s[|s| - 1] != '.'
    requires forall i :: 0 <= i < |s| ==> !InvalidChar(s[i]) && !IsSpace(s[i])
    ensures StripTrailingDots(
      ReplaceRuns(ReplaceRuns(ReplaceInvalid(Trim(s)), IsSpace, '-'), IsDash, '-')) == s
  {
    RewritesKeep(s);
    TrailingDotsKeep(s);
  }

  lemma TrailingDotsKeep(s: string)
    requires |s| > 0 && s[|s| - 1] != '.'
    ensures StripTrailingDots(s) == s
  {
  }

  lemma SanitizeDotDash()
    ensures Sanitize("a.-") == "a."
  {
    var s := "a.-";
    FirstPassesKeep(s);
    assert s == "a." + "-";
    StripEdgeOneDash("a.");
  }

  /** One trailing dash after a dash-free edge is all pass 5 removes. */
  lemma StripEdgeOneDash(a: string)
    requires |a| > 0 && a[0] != '-' && a[|a| - 1] != '-'
    ensures StripEdgeDashes(a + "-") == a
  {
    var s := a + "-";
    assert DropWhile(IsDash, s) == s;
    assert s[..|s| - 1] == a;
    assert StripTrailingDashes(a) == a;
  }

  lemma SanitizeTrailingDot()
    ensures Sanitize("a.") == "a"
  {
    var t := "a.";
    RewritesKeep(t);
    assert StripTrailingDots(t) == "a";
    assert DropWhile(IsDash, "a") == "a";
    assert StripTrailingDashes("a") == "a";
  }

  /** The passes are not idempotent: stripping the trailing dash can expose a
      trailing dot that only a second application removes. */
  lemma SanitizeNotIdempotent()
    ensures Sanitize("a.-") == "a."
    ensures Sanitize(Sanitize("a.-")) == "a"
  {
    SanitizeDotDash();
    SanitizeTrailingDot();
  }
}
