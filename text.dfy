/**
 * The fragments of Python's `str`, `int()`, `sorted` and `pathlib` that the
 * tools rely on, written out so that every parse and format in the model has
 * a checked meaning.
 */
module Text {
  import opened Common

  // ---------------------------------------------------------------- whitespace

  /** Python's `str.isspace()` on one character: the set `strip`, `split()` and `\s` use. */
  predicate IsSpace(c: char) {
    ('\t' <= c <= '\r') || ('\U{1C}' <= c <= '\U{1F}') || c == ' ' || c == '\U{85}' || c == '\U{A0}'
    || c == '\U{1680}' || ('\U{2000}' <= c <= '\U{200A}') || c == '\U{2028}' || c == '\U{2029}'
    || c == '\U{202F}' || c == '\U{205F}' || c == '\U{3000}'
  }

  predicate AllSpace(s: string) {
    forall i :: 0 <= i < |s| ==> IsSpace(s[i])
  }

  /** Neither end of `s` is whitespace. */
  predicate Stripped(s: string) {
    s == "" || (!IsSpace(s[0]) && !IsSpace(s[|s| - 1]))
  }

  /** The first index at or after `i` whose character is not whitespace (`|s|` when there is none). */
  function SkipSpace(s: string, i: nat): (k: nat)
    requires i <= |s|
    ensures i <= k <= |s|
    decreases |s| - i
  {
    if i < |s| && IsSpace(s[i]) then SkipSpace(s, i + 1) else i
  }

  /** `SkipSpace` passes only whitespace and stops at a non-whitespace character or the end. */
  lemma {:induction false} SkipSpaceSpec(s: string, i: nat)
    requires i <= |s|
    ensures forall m :: i <= m < SkipSpace(s, i) ==> IsSpace(s[m])
    ensures SkipSpace(s, i) == |s| || !IsSpace(s[SkipSpace(s, i)])
    decreases |s| - i
  {
    if i < |s| && IsSpace(s[i]) {
      SkipSpaceSpec(s, i + 1);
    }
  }

  /** The first index of the whitespace run that ends at `j` (`j` itself when `s[j - 1]` is not whitespace). */
  function SpaceRunStart(s: string, j: nat): (k: nat)
    requires j <= |s|
    ensures k <= j
  {
    if j > 0 && IsSpace(s[j - 1]) then SpaceRunStart(s, j - 1) else j
  }

  /** `SpaceRunStart` passes only whitespace and stops after a non-whitespace character or at the start. */
  lemma {:induction false} SpaceRunStartSpec(s: string, j: nat)
    requires j <= |s|
    ensures forall m :: SpaceRunStart(s, j) <= m < j ==> IsSpace(s[m])
    ensures SpaceRunStart(s, j) == 0 || !IsSpace(s[SpaceRunStart(s, j) - 1])
  {
    if j > 0 && IsSpace(s[j - 1]) {
      SpaceRunStartSpec(s, j - 1);
    }
  }

  /** `SkipSpace` stops at the first non-whitespace index and nowhere else. */
  lemma SkipSpaceAt(s: string, i: nat, m: nat)
    requires i <= m <= |s| && (forall k :: i <= k < m ==> IsSpace(s[k])) && (m == |s| || !IsSpace(s[m]))
    ensures SkipSpace(s, i) == m
  {
    SkipSpaceSpec(s, i);
  }

  /** `SpaceRunStart` stops just after the last non-whitespace index and nowhere else. */
  lemma SpaceRunStartAt(s: string, j: nat, m: nat)
    requires m <= j <= |s| && (forall k :: m <= k < j ==> IsSpace(s[k])) && (m == 0 || !IsSpace(s[m - 1]))
    ensures SpaceRunStart(s, j) == m
  {
    SpaceRunStartSpec(s, j);
  }

  /** Python's `str.lstrip()`. */
  function TrimStart(s: string): (r: string)
    ensures |r| <= |s| && r == s[|s| - |r|..]
  {
    s[SkipSpace(s, 0)..]
  }

  /** `lstrip` removes only whitespace and leaves a non-blank first character. */
  lemma TrimStartSpec(s: string)
    ensures AllSpace(s[..|s| - |TrimStart(s)|])
    ensures TrimStart(s) == "" || !IsSpace(TrimStart(s)[0])
  {
    SkipSpaceSpec(s, 0);
    var k := SkipSpace(s, 0);
    assert |s| - |TrimStart(s)| == k;
    forall m | 0 <= m < k ensures IsSpace(s[..k][m]) {
      assert s[..k][m] == s[m];
    }
  }

  /** Python's `str.rstrip()`. */
  function TrimEnd(s: string): (r: string)
    ensures |r| <= |s| && r == s[..|r|]
  {
    s[..SpaceRunStart(s, |s|)]
  }

  /** `rstrip` removes only whitespace and leaves a non-blank last character. */
  lemma TrimEndSpec(s: string)
    ensures AllSpace(s[|TrimEnd(s)|..])
    ensures TrimEnd(s) == "" || !IsSpace(TrimEnd(s)[|TrimEnd(s)| - 1])
  {
    SpaceRunStartSpec(s, |s|);
    var k := SpaceRunStart(s, |s|);
    forall m | 0 <= m < |s| - k ensures IsSpace(s[k..][m]) {
      assert s[k..][m] == s[k + m];
    }
  }

  /** Python's `str.strip()`. */
  function Strip(s: string): string {
    TrimEnd(TrimStart(s))
  }

  /** `strip` removes exactly a whitespace prefix and a whitespace suffix, and leaves both ends non-blank. */
  lemma StripShape(s: string)
    ensures Stripped(Strip(s))
    ensures var i := |s| - |TrimStart(s)|;
            var j := i + |Strip(s)|;
            i <= j <= |s| && Strip(s) == s[i..j] && AllSpace(s[..i]) && AllSpace(s[j..])
  {
    TrimStartSpec(s);
    TrimEndSpec(TrimStart(s));
    StripShapeOf(s, TrimStart(s), Strip(s));
  }

  /** The shape argument for `StripShape`, stated on the two trims' properties alone. */
  lemma StripShapeOf(s: string, t: string, r: string)
    requires |t| <= |s| && t == s[|s| - |t|..] && AllSpace(s[..|s| - |t|]) && (t == "" || !IsSpace(t[0]))
    requires |r| <= |t| && r == t[..|r|] && AllSpace(t[|r|..]) && (r == "" || !IsSpace(r[|r| - 1]))
    ensures Stripped(r)
    ensures var i := |s| - |t|; var j := i + |r|;
            i <= j <= |s| && r == s[i..j] && AllSpace(s[..i]) && AllSpace(s[j..])
  {
    var i := |s| - |t|;
    assert r == s[i..i + |r|];
    assert s[i + |r|..] == t[|r|..];
    if r != "" {
      assert r[0] == t[0];
    }
  }

  /** `r` is `s` less some whitespace at its start and some at its end. */
  predicate Trimmed(s: string, r: string) {
    exists i, j :: 0 <= i <= j <= |s| && r == s[i..j] && AllSpace(s[..i]) && AllSpace(s[j..])
  }

  lemma StripTrims(s: string)
    ensures Trimmed(s, Strip(s)) && Stripped(Strip(s))
  {
    StripShape(s);
    var i := |s| - |TrimStart(s)|;
    TrimmedAt(s, Strip(s), i, i + |Strip(s)|);
  }

  lemma TrimmedAt(s: string, r: string, i: nat, j: nat)
    requires i <= j <= |s| && r == s[i..j] && AllSpace(s[..i]) && AllSpace(s[j..])
    ensures Trimmed(s, r)
  {
  }

  /** A string without whitespace at its ends is its own `strip`. */
  lemma StripFixesStripped(s: string)
    requires Stripped(s)
    ensures Strip(s) == s
  {
    SkipSpaceAt(s, 0, 0);
    assert TrimStart(s) == s;
    SpaceRunStartAt(s, |s|, |s|);
  }

  /** Stripping twice is stripping once. */
  lemma StripIdempotent(s: string)
    ensures Strip(Strip(s)) == Strip(s)
  {
    StripShape(s);
    StripFixesStripped(Strip(s));
  }

  /** Trailing whitespace after a stripped, non-empty text is all `strip` removes. */
  lemma StripTrailingSpace(v: string, rest: string)
    requires v != "" && Stripped(v) && AllSpace(rest)
    ensures Strip(v + rest) == v
  {
    var t := v + rest;
    SkipSpaceAt(t, 0, 0);
    assert TrimStart(t) == t;
    forall k | |v| <= k < |t| ensures IsSpace(t[k]) {
      assert t[k] == rest[k - |v|];
    }
    SpaceRunStartAt(t, |t|, |v|);
    assert t[..|v|] == v;
  }

  /** Python's `not s.strip()`: the string is empty or all whitespace. */
  lemma StripEmptyIffBlank(s: string)
    ensures Strip(s) == "" <==> AllSpace(s)
  {
    StripShape(s);
    var i := |s| - |TrimStart(s)|;
    if Strip(s) == "" {
      forall k | 0 <= k < |s| ensures IsSpace(s[k]) {
        if k < i {
          assert s[k] == s[..i][k];
        } else {
          assert s[k] == s[i..][k - i];
        }
      }
    }
  }

  // ------------------------------------------------------------ searching

  predicate StartsWith(s: string, prefix: string) {
    |prefix| <= |s| && s[..|prefix|] == prefix
  }

  /** Python's `sub in s`. */
  predicate Contains(s: string, sub: string)
    decreases |s|
  {
    StartsWith(s, sub) || (s != "" && Contains(s[1..], sub))
  }

  /** A string that differs from `p` at position `i` does not start with `p`. */
  lemma DiffersAt(s: string, p: string, i: nat)
    requires i < |p| && i < |s| && s[i] != p[i]
    ensures !StartsWith(s, p)
  {
    if |p| <= |s| {
      assert s[..|p|][i] != p[i];
    }
  }

  /** The same, for a string given as a known opening `a` followed by anything. */
  lemma DiffersAtPrefix(a: string, x: string, p: string, i: nat)
    requires i < |a| && i < |p| && a[i] != p[i]
    ensures !StartsWith(a + x, p)
  {
    assert (a + x)[i] == a[i];
    DiffersAt(a + x, p, i);
  }

  /** The same, against a pattern given as a known opening `pa` followed by anything. */
  lemma DiffersAtBoth(a: string, x: string, pa: string, py: string, i: nat)
    requires i < |a| && i < |pa| && a[i] != pa[i]
    ensures !StartsWith(a + x, pa + py)
  {
    assert (pa + py)[i] == pa[i];
    DiffersAtPrefix(a, x, pa + py, i);
  }

  /** A string starts with any of its prefixes. */
  lemma StartsWithPrefix(a: string, x: string)
    ensures StartsWith(a + x, a)
  {
    assert (a + x)[..|a|] == a;
  }

  /** Python's `s.endswith(suffix)`. */
  predicate EndsWith(s: string, suffix: string) {
    |suffix| <= |s| && s[|s| - |suffix|..] == suffix
  }

  /** A string ends with any of its suffixes. */
  lemma EndsWithSuffix(a: string, x: string)
    ensures EndsWith(a + x, x)
  {
    assert (a + x)[|a|..] == x;
  }

  /** Whatever surrounds it, a piece of a string is contained in it. */
  lemma {:induction false} ContainsMiddle(a: string, sub: string, b: string)
    ensures Contains(a + sub + b, sub)
    decreases |a|
  {
    if a == "" {
      assert a + sub + b == sub + b;
      StartsWithPrefix(sub, b);
    } else {
      ContainsMiddle(a[1..], sub, b);
      assert (a + sub + b)[1..] == a[1..] + sub + b;
    }
  }

  /** Python's `s.find(c)` for one character. */
  function IndexOf(s: string, c: char): (i: int)
    ensures -1 <= i < |s|
    ensures i >= 0 ==> s[i] == c
  {
    if s == "" then -1
    else if s[0] == c then 0
    else
      var k := IndexOf(s[1..], c);
      if k < 0 then -1 else k + 1
  }

  /** `IndexOf` finds the first occurrence, and -1 exactly when there is none. */
  lemma {:induction false} IndexOfSpec(s: string, c: char)
    ensures var i := IndexOf(s, c);
            && (i >= 0 ==> forall j :: 0 <= j < i ==> s[j] != c)
            && (i < 0 ==> forall j :: 0 <= j < |s| ==> s[j] != c)
  {
    if s != "" && s[0] != c {
      IndexOfSpec(s[1..], c);
      assert forall j :: 1 <= j < |s| ==> s[j] == s[1..][j - 1];
    }
  }

  /** Python's `s.rfind(c)` for one character. */
  function LastIndexOf(s: string, c: char): (i: int)
    ensures -1 <= i < |s|
    ensures i >= 0 ==> s[i] == c
  {
    if s == "" then -1
    else if s[|s| - 1] == c then |s| - 1
    else LastIndexOf(s[..|s| - 1], c)
  }

  /** `LastIndexOf` finds the last occurrence: nothing after it is `c`. */
  lemma {:induction false} LastIndexOfSpec(s: string, c: char)
    ensures forall j :: LastIndexOf(s, c) < j < |s| ==> s[j] != c
  {
    if s != "" && s[|s| - 1] != c {
      var init := s[..|s| - 1];
      LastIndexOfSpec(init, c);
      assert forall j :: 0 <= j < |init| ==> init[j] == s[j];
    }
  }

  /** Python's `s.split(c)[0]`: the text before the first `c`. */
  function BeforeFirst(s: string, c: char): (r: string)
    ensures StartsWith(s, r)
    ensures forall j :: 0 <= j < |r| ==> r[j] != c
  {
    var i := IndexOf(s, c);
    IndexOfSpec(s, c);
    if i < 0 then s else s[..i]
  }

  /** Python's `s.split(c, 1)[1]`, which exists only when `c` occurs in `s`. */
  function AfterFirst(s: string, c: char): (r: string)
    requires IndexOf(s, c) >= 0
    ensures s == BeforeFirst(s, c) + [c] + r
  {
    s[IndexOf(s, c) + 1..]
  }

  // ------------------------------------------------------------ splitting

  /** Python's `s.split(c)` for a one-character separator. */
  function Split(s: string, c: char): (parts: seq<string>)
    ensures |parts| >= 1
    decreases |s|
  {
    var i := IndexOf(s, c);
    if i < 0 then [s] else [s[..i]] + Split(s[i + 1..], c)
  }

  /** Python's `sep.join(parts)`. */
  function Join(parts: seq<string>, sep: string): string {
    if parts == [] then ""
    else if |parts| == 1 then parts[0]
    else parts[0] + sep + Join(parts[1..], sep)
  }

  lemma JoinAppend(parts: seq<string>, last: string, sep: string)
    requires parts != []
    ensures Join(parts + [last], sep) == Join(parts, sep) + sep + last
  {
    if |parts| == 1 {
      assert parts + [last] == [parts[0], last];
    } else {
      assert (parts + [last])[1..] == parts[1..] + [last];
      JoinAppend(parts[1..], last, sep);
    }
  }

  /** `c` does not occur in `s`. */
  predicate Free(s: string, c: char) {
    forall j :: 0 <= j < |s| ==> s[j] != c
  }

  /** Splitting at `c` undoes joining with `c`, when no part contains `c`. */
  lemma {:induction false} SplitJoin(parts: seq<string>, c: char)
    requires parts != []
    requires forall k :: 0 <= k < |parts| ==> Free(parts[k], c)
    ensures Split(Join(parts, [c]), c) == parts
  {
    if |parts| == 1 {
      assert IndexOf(parts[0], c) < 0;
    } else {
      var s := Join(parts, [c]);
      assert s == parts[0] + [c] + Join(parts[1..], [c]);
      assert IndexOf(s, c) == |parts[0]| by {
        IndexOfAfterFree(parts[0], c, Join(parts[1..], [c]));
      }
      assert s[|parts[0]| + 1..] == Join(parts[1..], [c]);
      assert s[..|parts[0]|] == parts[0];
      SplitJoin(parts[1..], c);
    }
  }

  /** The first `c` in `a + [c] + b` is the one after `a`, when `a` has none. */
  lemma IndexOfAfterFree(a: string, c: char, b: string)
    requires forall j :: 0 <= j < |a| ==> a[j] != c
    ensures IndexOf(a + [c] + b, c) == |a|
  {
    var s := a + [c] + b;
    assert s[|a|] == c;
    var i := IndexOf(s, c);
    IndexOfSpec(s, c);
    assert forall j :: 0 <= j < |a| ==> s[j] == a[j];
  }

  /** Splitting `a + [c] + b` at `c`, when `a` has no `c`. */
  lemma SplitCons(a: string, c: char, b: string)
    requires forall j :: 0 <= j < |a| ==> a[j] != c
    ensures Split(a + [c] + b, c) == [a] + Split(b, c)
  {
    var s := a + [c] + b;
    IndexOfAfterFree(a, c, b);
    assert s[..|a|] == a;
    assert s[|a| + 1..] == b;
  }

  /** The characters Python's `str.splitlines()` breaks at. */
  predicate IsLineBreak(c: char) {
    c == '\n' || c == '\r' || c == '\U{0B}' || c == '\U{0C}' || ('\U{1C}' <= c <= '\U{1E}')
    || c == '\U{85}' || c == '\U{2028}' || c == '\U{2029}'
  }

  /** Index of the first line break in `s`, or `|s|`. */
  function LineEnd(s: string): (i: nat)
    ensures i <= |s|
    ensures i < |s| ==> IsLineBreak(s[i])
    ensures forall j :: 0 <= j < i ==> !IsLineBreak(s[j])
  {
    if s == "" || IsLineBreak(s[0]) then 0 else 1 + LineEnd(s[1..])
  }

  /** Where the line break at `i` ends: "\r\n" is one break of two characters. */
  function BreakEnd(s: string, i: nat): (next: nat)
    requires i < |s|
    ensures i < next <= |s|
  {
    if s[i] == '\r' && i + 1 < |s| && s[i + 1] == '\n' then i + 2 else i + 1
  }

  /** Python's `str.splitlines()`: "\r\n" is one break, and a final break opens no empty line. */
  function SplitLines(s: string): (lines: seq<string>)
    ensures s == "" <==> lines == []
    decreases |s|
  {
    if s == "" then []
    else
      var i := LineEnd(s);
      if i == |s| then [s]
      else
        [s[..i]] + SplitLines(s[BreakEnd(s, i)..])
  }

  /** `line` holds no line break. */
  predicate NoLineBreak(line: string) {
    forall j :: 0 <= j < |line| ==> !IsLineBreak(line[j])
  }

  /** A clean line in front of clean lines gives clean lines. */
  lemma ConsNoLineBreak(line: string, rest: seq<string>)
    requires NoLineBreak(line) && forall k :: 0 <= k < |rest| ==> NoLineBreak(rest[k])
    ensures forall k :: 0 <= k < |[line] + rest| ==> NoLineBreak(([line] + rest)[k])
  {
    forall k | 0 <= k < |[line] + rest|
      ensures NoLineBreak(([line] + rest)[k])
    {
      if k > 0 {
        assert ([line] + rest)[k] == rest[k - 1];
      }
    }
  }

  /** The text before the first line break holds none. */
  lemma FirstLineClean(s: string, i: nat)
    requires i == LineEnd(s)
    ensures NoLineBreak(s[..i])
  {
    forall j | 0 <= j < i
      ensures !IsLineBreak(s[..i][j])
    {
      assert s[..i][j] == s[j];
    }
  }

  /** No line `splitlines` returns holds a line break. */
  lemma {:induction false} SplitLinesSpec(s: string)
    ensures forall k :: 0 <= k < |SplitLines(s)| ==> NoLineBreak(SplitLines(s)[k])
    decreases |s|
  {
    if s != "" {
      var i := LineEnd(s);
      FirstLineClean(s, i);
      if i == |s| {
        assert s[..i] == s;
      } else {
        SplitLinesSpec(s[BreakEnd(s, i)..]);
        ConsNoLineBreak(s[..i], SplitLines(s[BreakEnd(s, i)..]));
      }
    }
  }

  /**
   * On text whose only line breaks are "\n" and which does not end in one,
   * `splitlines()` and `split("\n")` agree.
   */
  lemma {:induction false} SplitLinesAtNewlines(s: string)
    requires s != "" && s[|s| - 1] != '\n'
    requires forall j :: 0 <= j < |s| && IsLineBreak(s[j]) ==> s[j] == '\n'
    ensures SplitLines(s) == Split(s, '\n')
    decreases |s|
  {
    var i := LineEnd(s);
    if i == |s| {
      if IndexOf(s, '\n') >= 0 {
        assert IsLineBreak(s[IndexOf(s, '\n')]);
      }
    } else {
      NewlineStep(s, i);
      var rest := s[i + 1..];
      assert rest[|rest| - 1] == s[|s| - 1];
      forall j | 0 <= j < |rest| && IsLineBreak(rest[j])
        ensures rest[j] == '\n'
      {
        assert rest[j] == s[i + 1 + j];
      }
      SplitLinesAtNewlines(rest);
    }
  }

  /** A string is what comes before position `i`, the character there and what follows. */
  lemma CutAround(s: string, i: nat)
    requires i < |s|
    ensures s == s[..i] + [s[i]] + s[i + 1..]
  {
  }

  /** At a first line break that is "\n", both splits cut off the same first line. */
  lemma NewlineStep(s: string, i: nat)
    requires i == LineEnd(s) && i < |s| && s[i] == '\n'
    ensures SplitLines(s) == [s[..i]] + SplitLines(s[i + 1..])
    ensures Split(s, '\n') == [s[..i]] + Split(s[i + 1..], '\n')
  {
    CutAround(s, i);
    forall j | 0 <= j < |s[..i]|
      ensures s[..i][j] != '\n'
    {
      assert s[..i][j] == s[j];
    }
    SplitCons(s[..i], '\n', s[i + 1..]);
  }

  /** Index of the first whitespace character at or after `i`, or `|s|`. */
  function WordEnd(s: string, i: nat): (k: nat)
    requires i <= |s|
    ensures i <= k <= |s|
    ensures k == |s| || IsSpace(s[k])
    decreases |s| - i
  {
    if i < |s| && !IsSpace(s[i]) then WordEnd(s, i + 1) else i
  }

  /** `WordEnd` passes only non-whitespace. */
  lemma {:induction false} WordEndSpec(s: string, i: nat)
    requires i <= |s|
    ensures forall m :: i <= m < WordEnd(s, i) ==> !IsSpace(s[m])
    decreases |s| - i
  {
    if i < |s| && !IsSpace(s[i]) {
      WordEndSpec(s, i + 1);
    }
  }

  /** A run of non-whitespace from `i` that stops at whitespace or the end at `e` is the word there. */
  lemma {:induction false} WordEndAt(s: string, i: nat, e: nat)
    requires i <= e <= |s|
    requires forall m :: i <= m < e ==> !IsSpace(s[m])
    requires e == |s| || IsSpace(s[e])
    ensures WordEnd(s, i) == e
    decreases e - i
  {
    if i < e {
      WordEndAt(s, i + 1, e);
    }
  }

  /** The words of `s` from index `i` on. */
  function WordsFrom(s: string, i: nat): seq<string>
    requires i <= |s|
    decreases |s| - i
  {
    var k := SkipSpace(s, i);
    if k == |s| then []
    else
      var e := WordEnd(s, k);
      [s[k..e]] + WordsFrom(s, e)
  }

  /** Every word found from `i` on is non-empty and free of whitespace. */
  lemma {:induction false} WordsFromSpec(s: string, i: nat)
    requires i <= |s|
    ensures forall k :: 0 <= k < |WordsFrom(s, i)| ==> WordsFrom(s, i)[k] != ""
    ensures forall k, j :: 0 <= k < |WordsFrom(s, i)| && 0 <= j < |WordsFrom(s, i)[k]| ==> !IsSpace(WordsFrom(s, i)[k][j])
    decreases |s| - i
  {
    var k := SkipSpace(s, i);
    if k < |s| {
      SkipSpaceSpec(s, i);
      var e := WordEnd(s, k);
      WordEndSpec(s, k);
      var w := s[k..e];
      assert forall j :: 0 <= j < |w| ==> !IsSpace(w[j]);
      WordsFromSpec(s, e);
      var ws := WordsFrom(s, i);
      assert ws == [w] + WordsFrom(s, e);
      forall m | 1 <= m < |ws|
        ensures ws[m] == WordsFrom(s, e)[m - 1]
      {
      }
    }
  }

  /** Python's `str.split()` with no separator: the maximal runs of non-whitespace. */
  function Words(s: string): seq<string> {
    WordsFrom(s, 0)
  }

  /** The words are non-empty and hold no whitespace. */
  lemma WordsSpec(s: string)
    ensures forall k :: 0 <= k < |Words(s)| ==> Words(s)[k] != ""
    ensures forall k, j :: 0 <= k < |Words(s)| && 0 <= j < |Words(s)[k]| ==> !IsSpace(Words(s)[k][j])
  {
    WordsFromSpec(s, 0);
  }

  /** One step of `WordsFrom`: the next word, then the words after it. */
  lemma WordsFromUnfold(s: string, i: nat)
    requires i <= |s|
    ensures SkipSpace(s, i) == |s| ==> WordsFrom(s, i) == []
    ensures SkipSpace(s, i) < |s| ==>
              WordsFrom(s, i) == [s[SkipSpace(s, i)..WordEnd(s, SkipSpace(s, i))]] + WordsFrom(s, WordEnd(s, SkipSpace(s, i)))
  {
  }

  /** One whitespace character skipped by hand leaves the same words. */
  lemma SkipSpaceStep(s: string, i: nat)
    requires i < |s| && IsSpace(s[i])
    ensures WordsFrom(s, i) == WordsFrom(s, i + 1)
  {
    assert SkipSpace(s, i) == SkipSpace(s, i + 1);
  }

  /** A word as `split()` returns it: non-empty and free of whitespace. */
  predicate IsWord(w: string) {
    w != "" && forall j :: 0 <= j < |w| ==> !IsSpace(w[j])
  }

  /** The pieces of `s` from `i` on, when they are known to be `w + t`. */
  lemma SliceAt(s: string, i: nat, w: string, t: string)
    requires i <= |s| && s[i..] == w + t
    ensures i + |w| <= |s| && s[i..i + |w|] == w && s[i + |w|..] == t
  {
    assert s[i..][..|w|] == w;
    assert s[i..][|w|..] == t;
  }

  /** `sep.join` of a non-empty list: the first part, then the separator and the rest when there is more. */
  lemma JoinHead(ws: seq<string>, sep: string)
    requires ws != []
    ensures Join(ws, sep) == ws[0] + (if |ws| == 1 then "" else sep + Join(ws[1..], sep))
  {
    if |ws| > 1 {
      assert Join(ws, sep) == ws[0] + sep + Join(ws[1..], sep);
    }
  }

  /** A word at `i` of `s` followed by whitespace or the end is the next word found from `i`. */
  lemma WordAt(s: string, i: nat, w: string)
    requires IsWord(w) && i + |w| <= |s| && s[i..i + |w|] == w
    requires i + |w| == |s| || IsSpace(s[i + |w|])
    ensures WordsFrom(s, i) == [w] + WordsFrom(s, i + |w|)
  {
    var e := i + |w|;
    forall m | i <= m < e
      ensures !IsSpace(s[m])
    {
      assert s[m] == s[i..e][m - i];
    }
    assert s[i] == w[0];
    assert SkipSpace(s, i) == i;
    WordEndAt(s, i, e);
    WordsFromUnfold(s, i);
  }

  /** `s` goes on from `i` as the words `ws` joined by single spaces. */
  predicate JoinedFrom(s: string, i: nat, ws: seq<string>) {
    i <= |s| && s[i..] == Join(ws, " ")
  }

  /** Every element of `ws` is a word. */
  predicate AllWords(ws: seq<string>) {
    forall k :: 0 <= k < |ws| ==> IsWord(ws[k])
  }

  /** Where `s` goes on from `i` as two or more parts joined by " ": the first part, a space, then the others. */
  lemma JoinStep(s: string, i: nat, ws: seq<string>)
    requires |ws| > 1 && JoinedFrom(s, i, ws)
    ensures i + |ws[0]| < |s| && s[i..i + |ws[0]|] == ws[0] && IsSpace(s[i + |ws[0]|])
    ensures JoinedFrom(s, i + |ws[0]| + 1, ws[1..])
  {
    var e := i + |ws[0]|;
    JoinHead(ws, " ");
    SliceAt(s, i, ws[0], " " + Join(ws[1..], " "));
    SliceAt(s, e, " ", Join(ws[1..], " "));
    assert s[e] == ' ';
  }

  /** A word at `i` followed by a whitespace character: the word, then the words after that character. */
  lemma WordThenSpace(s: string, i: nat, w: string)
    requires IsWord(w) && i + |w| < |s| && s[i..i + |w|] == w && IsSpace(s[i + |w|])
    ensures WordsFrom(s, i) == [w] + WordsFrom(s, i + |w| + 1)
  {
    WordAt(s, i, w);
    SkipSpaceStep(s, i + |w|);
  }

  /** A word `ws[0]` at `i` followed by a whitespace character at `j - 1`, and the words from `j` on are the rest of `ws`. */
  lemma WordsFromStep(s: string, i: nat, j: nat, ws: seq<string>, rest: seq<string>)
    requires ws != [] && IsWord(ws[0]) && rest == ws[1..]
    requires j == i + |ws[0]| + 1 && j <= |s| && s[i..j - 1] == ws[0] && IsSpace(s[j - 1])
    requires WordsFrom(s, j) == rest
    ensures WordsFrom(s, i) == ws
  {
    WordThenSpace(s, i, ws[0]);
    HeadTail(ws);
  }

  lemma HeadTail(ws: seq<string>)
    requires ws != []
    ensures ws == [ws[0]] + ws[1..]
  {
  }

  /** Where `s` ends from `i` with nothing, or with one word, that is all `split()` finds there. */
  lemma WordsFromLast(s: string, i: nat, ws: seq<string>)
    requires |ws| <= 1 && JoinedFrom(s, i, ws) && AllWords(ws)
    ensures WordsFrom(s, i) == ws
  {
    if ws == [] {
      assert |s[i..]| == 0;
      WordsFromUnfold(s, i);
    } else {
      assert Join(ws, " ") == ws[0];
      assert IsWord(ws[0]);
      SliceAt(s, i, ws[0], "");
      WordAt(s, i, ws[0]);
      WordsFromUnfold(s, i + |ws[0]|);
      assert ws == [ws[0]];
    }
  }

  /** The tail of a list of words is a list of words. */
  lemma TailWords(ws: seq<string>)
    requires ws != [] && AllWords(ws)
    ensures IsWord(ws[0]) && AllWords(ws[1..])
  {
    forall k | 0 <= k < |ws[1..]|
      ensures IsWord(ws[1..][k])
    {
      assert ws[1..][k] == ws[k + 1];
    }
  }

  /** Where `s` goes on from `i` as `ws` joined by single spaces, the words from `i` on are `ws`. */
  lemma {:induction false} WordsFromJoin(s: string, i: nat, ws: seq<string>)
    requires JoinedFrom(s, i, ws) && AllWords(ws)
    ensures WordsFrom(s, i) == ws
    decreases |ws|
  {
    if |ws| <= 1 {
      WordsFromLast(s, i, ws);
    } else {
      var j := i + |ws[0]| + 1;
      var rest := ws[1..];
      JoinStep(s, i, ws);
      TailWords(ws);
      WordsFromJoin(s, j, rest);
      WordsFromStep(s, i, j, ws, rest);
    }
  }

  /** `" ".join(ws).split()` gives back `ws` when every word is non-empty and free of whitespace. */
  lemma WordsJoin(ws: seq<string>)
    requires forall k :: 0 <= k < |ws| ==> IsWord(ws[k])
    ensures Words(Join(ws, " ")) == ws
  {
    var s := Join(ws, " ");
    assert s[0..] == s;
    WordsFromJoin(s, 0, ws);
  }

  // ------------------------------------------------------------ integers

  predicate IsDigit(c: char) {
    '0' <= c <= '9'
  }

  function DigitChar(d: nat): (c: char)
    requires d < 10
    ensures IsDigit(c)
  {
    ('0' as int + d) as char
  }

  /** Python's `str(n)` for `n >= 0`. */
  function NatToString(n: nat): (s: string)
    ensures |s| >= 1
    ensures forall k :: 0 <= k < |s| ==> IsDigit(s[k])
  {
    if n < 10 then [DigitChar(n)] else NatToString(n / 10) + [DigitChar(n % 10)]
  }

  /** Python's `str(i)` (and `f"{i}"`) for an int. */
  function IntToString(i: int): string {
    if i < 0 then "-" + NatToString(-i) else NatToString(i)
  }

  /** The value of a string of decimal digits. */
  function DigitsValue(s: string): nat
    requires forall k :: 0 <= k < |s| ==> IsDigit(s[k])
  {
    if s == "" then 0
    else
      assert IsDigit(s[|s| - 1]);
      DigitsValue(s[..|s| - 1]) * 10 + (s[|s| - 1] as int - '0' as int)
  }

  lemma {:induction false} DigitsValueOfNat(n: nat)
    ensures DigitsValue(NatToString(n)) == n
  {
    if n >= 10 {
      var s := NatToString(n);
      assert s[..|s| - 1] == NatToString(n / 10);
      DigitsValueOfNat(n / 10);
    }
  }

  /** The digit part of a Python int literal: digits with single underscores between them. */
  predicate DigitGroups(s: string) {
    |s| >= 1 && IsDigit(s[0]) && IsDigit(s[|s| - 1])
    && (forall k :: 0 <= k < |s| ==> IsDigit(s[k]) || s[k] == '_')
    && (forall k :: 0 <= k < |s| - 1 ==> s[k] == '_' ==> s[k + 1] != '_')
  }

  function RemoveUnderscores(s: string): (r: string)
    ensures (forall k :: 0 <= k < |s| ==> IsDigit(s[k]) || s[k] == '_') ==>
              forall j :: 0 <= j < |r| ==> IsDigit(r[j])
    ensures (forall k :: 0 <= k < |s| ==> s[k] != '_') ==> r == s
  {
    if s == "" then ""
    else (if s[0] == '_' then "" else [s[0]]) + RemoveUnderscores(s[1..])
  }

  function GroupsValue(s: string): nat
    requires DigitGroups(s)
  {
    var digits := RemoveUnderscores(s);
    DigitsValue(digits)
  }

  /**
   * Python's `int(raw)` on base-10 ASCII text: surrounding whitespace, one sign,
   * and underscores between digits are accepted; `None` stands for ValueError.
   */
  function PythonInt(raw: string): (r: Option<int>)
  {
    IntLiteral(Strip(raw))
  }

  /** The value of an already stripped literal: one optional sign, then digit groups. */
  function IntLiteral(t: string): (r: Option<int>)
  {
    if t != "" && (t[0] == '-' || t[0] == '+') then
      if DigitGroups(t[1..]) then
        var v: int := GroupsValue(t[1..]);
        Some(if t[0] == '-' then -v else v)
      else None
    else if DigitGroups(t) then Some(GroupsValue(t))
    else None
  }

  /** `int(str(i)) == i`: the decimal rendering of an int parses back to it. */
  lemma PythonIntOfString(i: int)
    ensures PythonInt(IntToString(i)) == Some(i)
  {
    var n: nat := if i < 0 then -i else i;
    NatDigitGroups(n);
    if i < 0 {
      PythonIntSigned(NatToString(n));
    } else {
      PythonIntUnsigned(NatToString(n));
    }
  }

  /** `int("-" + d)` for a digit-group text `d`. */
  lemma PythonIntSigned(d: string)
    requires DigitGroups(d)
    ensures PythonInt("-" + d) == Some(-(GroupsValue(d) as int))
  {
    var t := "-" + d;
    assert t[1..] == d;
    assert Stripped(t) by {
      assert t[|t| - 1] == d[|d| - 1];
    }
    StripFixesStripped(t);
    IntLiteralSigned(t);
  }

  lemma IntLiteralSigned(t: string)
    requires t != "" && t[0] == '-' && DigitGroups(t[1..])
    ensures IntLiteral(t) == Some(-(GroupsValue(t[1..]) as int))
  {
  }

  /** `int(d)` for a digit-group text `d`. */
  lemma PythonIntUnsigned(d: string)
    requires DigitGroups(d)
    ensures PythonInt(d) == Some(GroupsValue(d))
  {
    assert Stripped(d);
    StripFixesStripped(d);
    IntLiteralUnsigned(d);
  }

  lemma IntLiteralUnsigned(t: string)
    requires DigitGroups(t)
    ensures IntLiteral(t) == Some(GroupsValue(t))
  {
  }

  lemma NatDigitGroups(n: nat)
    ensures DigitGroups(NatToString(n))
    ensures GroupsValue(NatToString(n)) == n
  {
    DigitsValueOfNat(n);
  }

  // ------------------------------------------------------------ ordering

  /** Python's `a <= b` on str: code-point lexicographic order. */
  predicate LexLe(a: string, b: string)
    decreases |a|
  {
    a == "" || (b != "" && (a[0] < b[0] || (a[0] == b[0] && LexLe(a[1..], b[1..]))))
  }

  lemma LexLeRefl(a: string)
    ensures LexLe(a, a)
  {
  }

  lemma {:induction false} LexLeTotal(a: string, b: string)
    ensures LexLe(a, b) || LexLe(b, a)
    decreases |a|
  {
    if a != "" && b != "" && a[0] == b[0] {
      LexLeTotal(a[1..], b[1..]);
    }
  }

  lemma {:induction false} LexLeTrans(a: string, b: string, c: string)
    requires LexLe(a, b) && LexLe(b, c)
    ensures LexLe(a, c)
    decreases |a|
  {
    if a != "" && a[0] == b[0] && b[0] == c[0] {
      LexLeTrans(a[1..], b[1..], c[1..]);
    }
  }

  lemma {:induction false} LexLeAntisym(a: string, b: string)
    requires LexLe(a, b) && LexLe(b, a)
    ensures a == b
    decreases |a|
  {
    if a != "" {
      LexLeAntisym(a[1..], b[1..]);
      assert a == [a[0]] + a[1..] && b == [b[0]] + b[1..];
    }
  }

  predicate Sorted(s: seq<string>) {
    forall i, j :: 0 <= i < j < |s| ==> LexLe(s[i], s[j])
  }

  function Insert(x: string, s: seq<string>): (r: seq<string>)
    requires Sorted(s)
    ensures Sorted(r) && multiset(r) == multiset(s) + multiset{x}
  {
    if s == [] then [x]
    else if LexLe(x, s[0]) then
      BoundBelowHead(x, s);
      ConsSorted(x, s);
      [x] + s
    else
      LexLeTotal(x, s[0]);
      SortedTail(s);
      var rest := Insert(x, s[1..]);
      InsertBehindHead(x, s, rest);
      [s[0]] + rest
  }

  /** The step of `Insert` that keeps the head in front. */
  lemma InsertBehindHead(x: string, s: seq<string>, rest: seq<string>)
    requires Sorted(s) && s != [] && LexLe(s[0], x)
    requires Sorted(rest) && multiset(rest) == multiset(s[1..]) + multiset{x}
    ensures Sorted([s[0]] + rest) && multiset([s[0]] + rest) == multiset(s) + multiset{x}
  {
    assert s == [s[0]] + s[1..];
    assert multiset(s) == multiset{s[0]} + multiset(s[1..]);
    forall y | y in multiset(rest) ensures LexLe(s[0], y) {
      if y != x {
        SortedHeadIsLeast(s, y);
      }
    }
    ConsSorted(s[0], rest);
  }

  /** A string below a sorted list's head is below all of it. */
  lemma BoundBelowHead(x: string, s: seq<string>)
    requires Sorted(s) && s != [] && LexLe(x, s[0])
    ensures forall y :: y in multiset(s) ==> LexLe(x, y)
  {
    forall y | y in multiset(s) ensures LexLe(x, y) {
      SortedHeadIsLeast(s, y);
      LexLeTrans(x, s[0], y);
    }
  }

  /** A lower bound of a sorted list goes in front of it. */
  lemma ConsSorted(h: string, s: seq<string>)
    requires Sorted(s) && forall y :: y in multiset(s) ==> LexLe(h, y)
    ensures Sorted([h] + s)
  {
    var r := [h] + s;
    forall i, j | 0 <= i < j < |r| ensures LexLe(r[i], r[j]) {
      assert r[j] == s[j - 1];
      if i == 0 {
        assert s[j - 1] in multiset(s);
      } else {
        assert r[i] == s[i - 1];
      }
    }
  }

  /** Python's `sorted(...)` on a list of str. */
  function Sort(s: seq<string>): (r: seq<string>)
    ensures Sorted(r) && multiset(r) == multiset(s)
  {
    if s == [] then []
    else
      assert s == [s[0]] + s[1..];
      Insert(s[0], Sort(s[1..]))
  }

  /** Strings whose first characters differ are ordered by them. */
  lemma LexLeByFirst(a: string, b: string)
    requires a != "" && b != "" && a[0] < b[0]
    ensures LexLe(a, b)
  {
  }

  /** A list whose neighbours are in order is sorted. */
  lemma {:induction false} SortedOfChained(s: seq<string>)
    requires forall i :: 0 <= i < |s| - 1 ==> LexLe(s[i], s[i + 1])
    ensures Sorted(s)
    decreases |s|
  {
    if |s| > 1 {
      SortedOfChained(s[1..]);
      forall j | 0 < j < |s| ensures LexLe(s[0], s[j]) {
        if j > 1 {
          assert s[1..][0] == s[1] && s[1..][j - 1] == s[j];
          LexLeTrans(s[0], s[1], s[j]);
        }
      }
      forall i, j | 0 <= i < j < |s| ensures LexLe(s[i], s[j]) {
        if i > 0 { assert s[1..][i - 1] == s[i] && s[1..][j - 1] == s[j]; }
      }
    }
  }

  /** There is only one sorted arrangement of a list of strings, so `Sort` is Python's `sorted`. */
  lemma {:induction false} SortedPermutationUnique(a: seq<string>, b: seq<string>)
    requires Sorted(a) && Sorted(b) && multiset(a) == multiset(b)
    ensures a == b
    decreases |a|
  {
    if a != [] {
      assert |b| == |a| by { assert |multiset(a)| == |multiset(b)|; }
      assert b[0] in multiset(b) && a[0] in multiset(a);
      SortedHeadIsLeast(a, b[0]);
      SortedHeadIsLeast(b, a[0]);
      LexLeAntisym(a[0], b[0]);
      SortedTail(a);
      SortedTail(b);
      assert multiset(a[1..]) == multiset(b[1..]);
      SortedPermutationUnique(a[1..], b[1..]);
      SameHeadSameTail(a, b);
    }
  }

  lemma SameHeadSameTail(a: seq<string>, b: seq<string>)
    requires a != [] && b != [] && a[0] == b[0] && a[1..] == b[1..]
    ensures a == b
  {
    assert a == [a[0]] + a[1..] && b == [b[0]] + b[1..];
  }

  lemma SortedHeadIsLeast(a: seq<string>, x: string)
    requires Sorted(a) && x in multiset(a)
    ensures LexLe(a[0], x)
  {
    var i :| 0 <= i < |a| && a[i] == x;
    if i == 0 { LexLeRefl(x); }
  }

  lemma SortedTail(a: seq<string>)
    requires Sorted(a) && a != []
    ensures Sorted(a[1..])
    ensures multiset(a[1..]) == multiset(a) - multiset{a[0]}
  {
    assert a == [a[0]] + a[1..];
  }

  // ------------------------------------------------------------ pathlib

  /** A `pathlib.PurePosixPath`: its anchor ("", "/" or "//") and its parts. */
  datatype PurePath = PurePath(root: string, parts: seq<string>)

  /** The parts of a path: no empty segments and no "." segments. */
  function Segments(raw: seq<string>): (parts: seq<string>)
    ensures |parts| <= |raw|
  {
    if raw == [] then []
    else (if raw[0] == "" || raw[0] == "." then [] else [raw[0]]) + Segments(raw[1..])
  }

  /** No segment is empty or ".". */
  lemma {:induction false} SegmentsSpec(raw: seq<string>)
    ensures forall k :: 0 <= k < |Segments(raw)| ==> Segments(raw)[k] != "" && Segments(raw)[k] != "."
  {
    if raw != [] {
      SegmentsSpec(raw[1..]);
      var head := if raw[0] == "" || raw[0] == "." then [] else [raw[0]];
      var tail := Segments(raw[1..]);
      var parts := head + tail;
      assert Segments(raw) == parts;
      forall k | 0 <= k < |parts|
        ensures parts[k] != "" && parts[k] != "."
      {
        if k >= |head| {
          assert parts[k] == tail[k - |head|];
        } else {
          assert parts[k] == raw[0];
        }
      }
    }
  }

  /** `PurePosixPath(s)`: exactly two leading slashes are kept, three or more collapse to one. */
  function ParsePath(s: string): PurePath {
    PurePath(Anchor(s), Segments(Split(s, '/')))
  }

  /** The anchor of `PurePosixPath(s)`. */
  function Anchor(s: string): string {
    if StartsWith(s, "//") && !StartsWith(s, "///") then "//"
    else if StartsWith(s, "/") then "/" else ""
  }

  /** `p / s`: an absolute `s` replaces `p`. */
  function PathDiv(p: PurePath, s: string): PurePath {
    var q := ParsePath(s);
    if q.root != "" then q else PurePath(p.root, p.parts + q.parts)
  }

  /** `str(p)`. */
  function PathStr(p: PurePath): string {
    if p.root == "" && p.parts == [] then "." else p.root + Join(p.parts, "/")
  }

  /** A segment a clean path may hold. */
  predicate PlainSegment(seg: string) {
    seg != "" && seg != "." && Free(seg, '/')
  }

  lemma {:induction false} SegmentsOfPlain(segs: seq<string>)
    requires forall k :: 0 <= k < |segs| ==> PlainSegment(segs[k])
    ensures Segments(segs) == segs
    ensures Segments([""] + segs) == segs
  {
    if segs != [] {
      var tail := segs[1..];
      assert forall k :: 0 <= k < |tail| ==> tail[k] == segs[k + 1];
      SegmentsOfPlain(tail);
      assert PlainSegment(segs[0]);
      assert Segments(segs) == [segs[0]] + Segments(tail);
      assert segs == [segs[0]] + tail;
    }
    assert ([""] + segs)[1..] == segs;
  }

  lemma AnchorOfCleanAbsolute(segs: seq<string>)
    requires segs != []
    requires forall k :: 0 <= k < |segs| ==> PlainSegment(segs[k])
    ensures Anchor("/" + Join(segs, "/")) == "/"
  {
    var p := "/" + Join(segs, "/");
    assert p[..1] == ['/'];
    JoinFirstChar(segs, "/");
    assert PlainSegment(segs[0]);
    assert p[1] == segs[0][0] != '/';
    assert p[..2][1] != ("//")[1];
  }

  lemma SegmentsOfCleanAbsolute(segs: seq<string>)
    requires segs != []
    requires forall k :: 0 <= k < |segs| ==> PlainSegment(segs[k])
    ensures Segments(Split("/" + Join(segs, "/"), '/')) == segs
  {
    var p := "/" + Join(segs, "/");
    assert p == "" + ['/'] + Join(segs, "/");
    SplitCons("", '/', Join(segs, "/"));
    assert forall k :: 0 <= k < |segs| ==> Free(segs[k], '/');
    SplitJoin(segs, '/');
    SegmentsOfPlain(segs);
  }

  /** A clean absolute path parses to the "/" anchor and its own segments. */
  lemma ParseCleanAbsolute(segs: seq<string>)
    requires segs != []
    requires forall k :: 0 <= k < |segs| ==> PlainSegment(segs[k])
    ensures ParsePath("/" + Join(segs, "/")) == PurePath("/", segs)
  {
    AnchorOfCleanAbsolute(segs);
    SegmentsOfCleanAbsolute(segs);
  }

  /** A single plain segment parses to a relative one-part path. */
  lemma ParsePlainSegment(name: string)
    requires PlainSegment(name)
    ensures ParsePath(name) == PurePath("", [name])
  {
    SplitJoin([name], '/');
    assert Split(name, '/') == [name];
    assert Segments([name]) == [name];
    assert !StartsWith(name, "/");
  }

  /**
   * For an absolute path written without redundant slashes or "." segments,
   * `str(Path(p) / name)` is plain concatenation `p + "/" + name`.
   */
  lemma PathDivClean(segs: seq<string>, name: string)
    requires segs != [] && PlainSegment(name)
    requires forall k :: 0 <= k < |segs| ==> PlainSegment(segs[k])
    ensures PathDiv(ParsePath("/" + Join(segs, "/")), name) == PurePath("/", segs + [name])
    ensures PathStr(PathDiv(ParsePath("/" + Join(segs, "/")), name)) == "/" + Join(segs, "/") + "/" + name
  {
    var p := "/" + Join(segs, "/");
    ParseCleanAbsolute(segs);
    ParsePlainSegment(name);
    var d := PathDiv(ParsePath(p), name);
    assert d == PurePath("/", segs + [name]);
    assert PathStr(d) == "/" + Join(segs + [name], "/");
    JoinAppend(segs, name, "/");
    ConcatAssoc("/", Join(segs, "/"), "/", name);
  }

  lemma ConcatAssoc(a: string, b: string, c: string, d: string)
    ensures a + (b + c + d) == a + b + c + d
  {
  }

  lemma JoinFirstChar(parts: seq<string>, sep: string)
    requires parts != [] && parts[0] != ""
    ensures Join(parts, sep) != "" && Join(parts, sep)[0] == parts[0][0]
  {
  }
}
