/**
 * The handful of Python `str` operations the bot relies on, written out on
 * `seq<char>`: `isspace`, `lower`, `strip`, `startswith`, `find`,
 * `split(sep)`, `split(sep, maxsplit)` and `replace(c, '')`.
 */
module Text {
  import opened Wrappers

  /** Python's `str.isspace()` on one character; the regular-expression class
      `\s` on a `str` pattern matches the same set. */
  predicate IsSpace(c: char) {
    c == ' ' || ('\t' <= c <= '\r') || ('\U{1C}' <= c <= '\U{1F}')
    || c == '\U{85}' || c == '\U{A0}' || c == '\U{1680}'
    || ('\U{2000}' <= c <= '\U{200A}') || c == '\U{2028}' || c == '\U{2029}'
    || c == '\U{202F}' || c == '\U{205F}' || c == '\U{3000}'
  }

  /** The regular-expression class `\w`, restricted to ASCII. */
  predicate IsWordChar(c: char) {
    ('a' <= c <= 'z') || ('A' <= c <= 'Z') || ('0' <= c <= '9') || c == '_'
  }

  predicate IsUpper(c: char) {
    'A' <= c <= 'Z'
  }

  function LowerChar(c: char): char {
    if IsUpper(c) then (c as int + 32) as char else c
  }

  /** `s.lower()` for ASCII letters. */
  function Lower(s: string): string {
    seq(|s|, i requires 0 <= i < |s| => LowerChar(s[i]))
  }

  /** Lower-casing twice changes nothing more than lower-casing once, and the
      result holds no upper-case letter. */
  lemma LowerIdempotent(s: string)
    ensures Lower(Lower(s)) == Lower(s)
    ensures forall i :: 0 <= i < |s| ==> !IsUpper(Lower(s)[i])
  {
  }

  /** The answer every collector treats as "leave this field out": `skip` in
      any letter case. */
  predicate IsSkip(text: string) {
    Lower(text) == "skip"
  }

  predicate StartsWith(s: string, prefix: string) {
    |prefix| <= |s| && s[..|prefix|] == prefix
  }

  /** `s.lstrip()`. */
  function StripLeft(s: string): (r: string)
    ensures |r| <= |s| && r == s[|s| - |r|..]
    ensures r == [] || !IsSpace(r[0])
    ensures forall i :: 0 <= i < |s| - |r| ==> IsSpace(s[i])
  {
    if s != [] && IsSpace(s[0]) then
      var r := StripLeft(s[1..]);
      assert s[1..][|s| - 1 - |r|..] == s[|s| - |r|..];
      assert forall i :: 1 <= i < |s| - |r| ==> s[i] == s[1..][i - 1];
      r
    else s
  }

  /** `s.rstrip()`. */
  function StripRight(s: string): (r: string)
    ensures |r| <= |s| && r == s[..|r|]
    ensures r == [] || !IsSpace(r[|r| - 1])
    ensures forall i :: |r| <= i < |s| ==> IsSpace(s[i])
  {
    if s != [] && IsSpace(s[|s| - 1]) then
      var r := StripRight(s[..|s| - 1]);
      assert s[..|s| - 1][..|r|] == s[..|r|];
      assert forall i :: |r| <= i < |s| - 1 ==> s[i] == s[..|s| - 1][i];
      r
    else s
  }

  /** `s.strip()`: the longest slice of `s` that neither starts nor ends with
      whitespace, and only whitespace is dropped around it. */
  function Strip(s: string): (r: string)
    ensures r == [] || (!IsSpace(r[0]) && !IsSpace(r[|r| - 1]))
    ensures exists k :: SurroundedAt(s, r, k)
  {
    StripOfParts(s);
    StripRight(StripLeft(s))
  }

  /** The right strip of the left strip has the properties `Strip` promises. */
  lemma StripOfParts(s: string)
    ensures StripRight(StripLeft(s)) == []
            || (!IsSpace(StripRight(StripLeft(s))[0]) && !IsSpace(StripRight(StripLeft(s))[|StripRight(StripLeft(s))| - 1]))
    ensures exists k :: SurroundedAt(s, StripRight(StripLeft(s)), k)
  {
    var l := StripLeft(s);
    var r := StripRight(l);
    SurroundedByParts(s, l, r);
    assert r != [] ==> r[0] == l[0];
  }

  /** The left strip followed by the right strip leaves `r` surrounded by
      whitespace in `s`. */
  lemma SurroundedByParts(s: string, l: string, r: string)
    requires |l| <= |s| && l == s[|s| - |l|..]
    requires forall i :: 0 <= i < |s| - |l| ==> IsSpace(s[i])
    requires |r| <= |l| && r == l[..|r|]
    requires forall i :: |r| <= i < |l| ==> IsSpace(l[i])
    ensures SurroundedAt(s, r, |s| - |l|)
  {
    var k := |s| - |l|;
    assert l[..|r|] == s[k..k + |r|];
    assert forall i :: k + |r| <= i < |s| ==> s[i] == l[i - k];
  }

  /** `r` sits in `s` at offset `k` with only whitespace around it. */
  predicate SurroundedAt(s: string, r: string, k: int) {
    0 <= k <= |s| - |r| && r == s[k..k + |r|]
    && (forall i :: 0 <= i < k ==> IsSpace(s[i]))
    && (forall i :: k + |r| <= i < |s| ==> IsSpace(s[i]))
  }

  /** Stripping a text that already has no surrounding whitespace returns it. */
  lemma StripOfTrimmed(s: string)
    requires s == [] || (!IsSpace(s[0]) && !IsSpace(s[|s| - 1]))
    ensures Strip(s) == s
  {
  }

  /** Stripping brings in no upper-case character. */
  lemma StripNoUpper(s: string)
    requires forall i :: 0 <= i < |s| ==> !IsUpper(s[i])
    ensures forall i :: 0 <= i < |Strip(s)| ==> !IsUpper(Strip(s)[i])
  {
    var r := Strip(s);
    var k :| SurroundedAt(s, r, k);
    SliceNoUpper(s, r, k);
  }

  /** A slice of a text without upper-case characters has none either. */
  lemma SliceNoUpper(s: string, r: string, k: int)
    requires 0 <= k <= |s| - |r| && r == s[k..k + |r|]
    requires forall i :: 0 <= i < |s| ==> !IsUpper(s[i])
    ensures forall i :: 0 <= i < |r| ==> !IsUpper(r[i])
  {
    forall i | 0 <= i < |r|
      ensures !IsUpper(r[i])
    {
      assert r[i] == s[k + i];
    }
  }

  /** Whitespace only strips to the empty text, and nothing else does. */
  lemma StripEmptyIffBlank(s: string)
    ensures Strip(s) == [] <==> forall i :: 0 <= i < |s| ==> IsSpace(s[i])
  {
    if Strip(s) != [] {
      var r := Strip(s);
      var k :| SurroundedAt(s, r, k);
      assert s[k] == r[0];
    }
  }

  predicate MatchAt(s: string, pat: string, k: int) {
    0 <= k && k + |pat| <= |s| && s[k..k + |pat|] == pat
  }

  /** A match needs the pattern's first character. */
  lemma NoMatchAt(s: string, pat: string, j: int)
    requires pat != [] && 0 <= j < |s| && s[j] != pat[0]
    ensures !MatchAt(s, pat, j)
  {
    if j + |pat| <= |s| {
      assert s[j..j + |pat|][0] == s[j];
    }
  }

  /** `s.find(pat, from)`: the first occurrence of `pat` at or after `from`. */
  function FindFrom(s: string, pat: string, from: nat): (r: Option<nat>)
    requires pat != []
    ensures r.Some? ==> from <= r.value && MatchAt(s, pat, r.value)
    ensures forall k :: from <= k && (r.None? || k < r.value) ==> !MatchAt(s, pat, k)
    decreases |s| - from
  {
    if from + |pat| > |s| then None
    else if s[from..from + |pat|] == pat then Some(from)
    else FindFrom(s, pat, from + 1)
  }

  /** `s.find(c)` for one character. */
  function IndexOf(s: string, c: char): (r: Option<nat>)
    ensures r.Some? ==> r.value < |s| && s[r.value] == c && c !in s[..r.value]
    ensures r.None? ==> c !in s
  {
    if s == [] then None
    else if s[0] == c then Some(0)
    else match IndexOf(s[1..], c)
      case None => None
      case Some(i) =>
        assert s[..i + 1] == [s[0]] + s[1..][..i];
        Some(i + 1)
  }

  /** `s.split(c)[0]`: the text before the first `c`, or all of `s`. */
  function BeforeChar(s: string, c: char): (r: string)
    ensures StartsWith(s, r) && c !in r
    ensures |r| < |s| ==> s[|r|] == c
  {
    match IndexOf(s, c)
    case None => s
    case Some(i) => s[..i]
  }

  /** `s.split(c)[1]`, or None where Python raises IndexError. */
  function SecondPiece(s: string, c: char): (r: Option<string>)
    ensures r.None? <==> c !in s
  {
    match IndexOf(s, c)
    case None => None
    case Some(i) => Some(BeforeChar(s[i + 1..], c))
  }

  /** `s.split(c)[-1]`: the text after the last `c`, or all of `s`. */
  function LastPiece(s: string, c: char): (r: string)
    ensures |r| <= |s| && r == s[|s| - |r|..] && c !in r
    ensures |r| < |s| ==> s[|s| - |r| - 1] == c
  {
    match IndexOf(s, c)
    case None => s
    case Some(i) =>
      var r := LastPiece(s[i + 1..], c);
      SuffixOfSuffix(s, i + 1, r, c);
      r
  }

  /** A suffix of `s[k..]` with its properties is a suffix of `s` with them. */
  lemma SuffixOfSuffix(s: string, k: nat, r: string, c: char)
    requires 0 < k <= |s| && s[k - 1] == c
    requires |r| <= |s| - k && r == s[k..][|s| - k - |r|..] && c !in r
    requires |r| < |s| - k ==> s[k..][|s| - k - |r| - 1] == c
    ensures |r| <= |s| && r == s[|s| - |r|..] && c !in r
    ensures |r| < |s| ==> s[|s| - |r| - 1] == c
  {
    assert s[k..][|s| - k - |r|..] == s[|s| - |r|..];
    if |r| < |s| - k {
      assert s[k..][|s| - k - |r| - 1] == s[|s| - |r| - 1];
    }
  }

  /** The last piece is the only suffix free of `c` that follows a `c` or
      covers the whole text. */
  lemma LastPieceUnique(s: string, c: char, r: string)
    requires |r| <= |s| && r == s[|s| - |r|..] && c !in r
    requires |r| < |s| ==> s[|s| - |r| - 1] == c
    ensures r == LastPiece(s, c)
  {
    FreeSuffixUnique(s, c, LastPiece(s, c), r);
  }

  /** Two suffixes free of `c` that each follow a `c` or cover the whole
      text are the same. */
  lemma FreeSuffixUnique(s: string, c: char, p: string, r: string)
    requires |p| <= |s| && p == s[|s| - |p|..] && c !in p
    requires |p| < |s| ==> s[|s| - |p| - 1] == c
    requires |r| <= |s| && r == s[|s| - |r|..] && c !in r
    requires |r| < |s| ==> s[|s| - |r| - 1] == c
    ensures p == r
  {
    LongerSuffixHolds(s, c, p, r);
    LongerSuffixHolds(s, c, r, p);
  }

  /** A suffix longer than one that follows a `c` contains that `c`. */
  lemma LongerSuffixHolds(s: string, c: char, p: string, r: string)
    requires |p| <= |s| && p == s[|s| - |p|..] && (|p| < |s| ==> s[|s| - |p| - 1] == c)
    requires |r| <= |s| && r == s[|s| - |r|..]
    ensures |p| < |r| ==> c in r
  {
    if |p| < |r| {
      assert r[|r| - |p| - 1] == s[|s| - |p| - 1];
    }
  }

  /** `s.split(c, n)`: at most `n` cuts, at the first `n` occurrences of `c`;
      the last piece keeps any further `c`. */
  function SplitMax(s: string, c: char, n: nat): (r: seq<string>)
    ensures 1 <= |r| <= n + 1
    ensures forall i :: 0 <= i < |r| - 1 ==> c !in r[i]
  {
    if n == 0 then [s]
    else match IndexOf(s, c)
      case None => [s]
      case Some(i) => [s[..i]] + SplitMax(s[i + 1..], c, n - 1)
  }

  /** Joining pieces with `c` and splitting again with as many cuts gives the
      pieces back, as long as no piece but the last holds `c`. */
  lemma {:induction false} SplitMaxOfJoin(pieces: seq<string>, c: char)
    requires |pieces| >= 1
    requires forall i :: 0 <= i < |pieces| - 1 ==> c !in pieces[i]
    ensures SplitMax(Join(pieces, c), c, |pieces| - 1) == pieces
    decreases |pieces|
  {
    if |pieces| > 1 {
      var a := pieces[0];
      var tail := pieces[1..];
      assert c !in a;
      forall i | 0 <= i < |tail| - 1
        ensures c !in tail[i]
      {
        assert tail[i] == pieces[i + 1];
      }
      SplitMaxAfterFirst(a, c, Join(tail, c), |pieces| - 1);
      SplitMaxOfJoin(tail, c);
      assert pieces == [a] + tail;
    }
  }

  /** The first cut falls right after a first piece free of `c`. */
  lemma SplitMaxAfterFirst(a: string, c: char, rest: string, n: nat)
    requires c !in a && n >= 1
    ensures SplitMax(a + [c] + rest, c, n) == [a] + SplitMax(rest, c, n - 1)
  {
    var s := a + [c] + rest;
    IndexOfPrefix(a, c, rest);
    assert s[..|a|] == a;
    assert s[|a| + 1..] == rest;
  }

  lemma AroundIndex(s: string, i: nat)
    requires i < |s|
    ensures s[..i] + [s[i]] + s[i + 1..] == s
  {
  }

  /** Joining the text before a cut with the rejoined rest restores the text. */
  lemma JoinAfterCut(s: string, c: char, i: nat, rest: seq<string>, pieces: seq<string>)
    requires i < |s| && s[i] == c && |rest| >= 1 && pieces == [s[..i]] + rest
    requires Join(rest, c) == s[i + 1..]
    ensures Join(pieces, c) == s
  {
    assert pieces[1..] == rest;
    AroundIndex(s, i);
  }

  lemma SplitMaxAtCut(s: string, c: char, n: nat, i: nat)
    requires n > 0 && IndexOf(s, c) == Some(i)
    ensures SplitMax(s, c, n) == [s[..i]] + SplitMax(s[i + 1..], c, n - 1)
  {
  }

  /** Splitting and joining again loses nothing. */
  lemma {:induction false} JoinOfSplitMax(s: string, c: char, n: nat)
    ensures Join(SplitMax(s, c, n), c) == s
    decreases |s|
  {
    if n > 0 {
      match IndexOf(s, c)
      case None =>
      case Some(i) =>
        var rest := SplitMax(s[i + 1..], c, n - 1);
        JoinOfSplitMax(s[i + 1..], c, n - 1);
        SplitMaxAtCut(s, c, n, i);
        JoinAfterCut(s, c, i, rest, SplitMax(s, c, n));
    }
  }

  /** `s.split(c, n)` has one piece more than the cuts it makes: `n`, or the
      number of `c` in `s` when there are fewer. */
  lemma {:induction false} SplitMaxCount(s: string, c: char, n: nat)
    ensures |SplitMax(s, c, n)| == 1 + (if multiset(s)[c] < n then multiset(s)[c] else n)
    decreases |s|, 1
  {
    match IndexOf(s, c)
    case None =>
      assert multiset(s)[c] == 0;
    case Some(i) =>
      SplitMaxCountAt(s, c, n, i);
  }

  /** `SplitMaxCount` when the first `c` is at `i`. */
  lemma {:induction false} SplitMaxCountAt(s: string, c: char, n: nat, i: nat)
    requires IndexOf(s, c) == Some(i)
    ensures |SplitMax(s, c, n)| == 1 + (if multiset(s)[c] < n then multiset(s)[c] else n)
    decreases |s|, 0
  {
    CountAtFirst(s, c, i);
    if n > 0 {
      SplitMaxStep(s, c, n, i);
      SplitMaxCount(s[i + 1..], c, n - 1);
      CutsStep(multiset(s)[c], multiset(s[i + 1..])[c], n);
    } else {
      assert SplitMax(s, c, n) == [s];
    }
  }

  /** One more `c` and one more allowed cut make one more cut. */
  lemma CutsStep(m: nat, mb: nat, n: nat)
    requires m == 1 + mb && n > 0
    ensures 1 + (if mb < n - 1 then mb else n - 1) == (if m < n then m else n)
  {
  }

  /** The first cut of `SplitMax` when the first `c` is at `i`. */
  lemma SplitMaxStep(s: string, c: char, n: nat, i: nat)
    requires IndexOf(s, c) == Some(i) && n > 0
    ensures |SplitMax(s, c, n)| == 1 + |SplitMax(s[i + 1..], c, n - 1)|
  {
  }

  /** The text after the first `c` holds one `c` fewer. */
  lemma CountAtFirst(s: string, c: char, i: nat)
    requires IndexOf(s, c) == Some(i)
    ensures multiset(s)[c] == 1 + multiset(s[i + 1..])[c]
  {
    assert s == s[..i] + [c] + s[i + 1..];
    CountAfterFirst(s, s[..i], s[i + 1..], c);
  }

  /** Cutting at the first `c` leaves one `c` fewer after the cut. */
  lemma CountAfterFirst(s: string, a: string, b: string, c: char)
    requires s == a + [c] + b && c !in a
    ensures multiset(s)[c] == 1 + multiset(b)[c]
  {
    assert multiset(s) == multiset(a) + multiset{c} + multiset(b);
    assert multiset(a)[c] == 0;
  }

  /** The inverse of `SplitMax`: `c.join(pieces)`. */
  function Join(pieces: seq<string>, c: char): string
    requires |pieces| >= 1
    decreases |pieces|
  {
    if |pieces| == 1 then pieces[0] else pieces[0] + [c] + Join(pieces[1..], c)
  }

  lemma IndexOfPrefix(a: string, c: char, b: string)
    requires c !in a
    ensures IndexOf(a + [c] + b, c) == Some(|a|)
  {
    var s := a + [c] + b;
    assert s[|a|] == c;
    assert s[..|a|] == a;
    var r := IndexOf(s, c);
    assert r.Some?;
    assert s[r.value] == c;
  }

  /** `s.split(pat)[1]` for a non-empty separator, or None where Python
      raises IndexError. */
  function SplitSecond(s: string, pat: string): (r: Option<string>)
    requires pat != []
    ensures r.None? <==> FindFrom(s, pat, 0).None?
  {
    match FindFrom(s, pat, 0)
    case None => None
    case Some(k) => Some(PieceFrom(s, pat, k + |pat|))
  }

  /** The text from `start` up to the next `pat`, or to the end. */
  function PieceFrom(s: string, pat: string, start: nat): (r: string)
    requires pat != [] && start <= |s|
  {
    match FindFrom(s, pat, start)
    case None => s[start..]
    case Some(j) => s[start..j]
  }

  /** The first occurrence of `pat` at or after `from` is at `k` when `pat`
      occurs at `k` and nowhere in between. */
  lemma FindFromAt(s: string, pat: string, from: nat, k: nat)
    requires pat != [] && from <= k && MatchAt(s, pat, k)
    requires forall j :: from <= j < k ==> !MatchAt(s, pat, j)
    ensures FindFrom(s, pat, from) == Some(k)
  {
  }

  /** When the text at `start` is a line `x` that holds no `pat`, and `pat`
      does not span lines, the piece from `start` up to its first line break
      is `x`. */
  lemma PieceFromLine(s: string, pat: string, start: nat, x: string)
    requires pat != [] && '\n' !in pat && '\n' !in x && FindFrom(x, pat, 0).None?
    requires start + |x| < |s| && s[start..start + |x| + 1] == x + "\n"
    ensures BeforeChar(PieceFrom(s, pat, start), '\n') == x
  {
    var e := start + |x|;
    NoMatchOnLine(s, pat, start, x);
    var p := PieceFrom(s, pat, start);
    assert |p| > |x| && p[..|x| + 1] == x + "\n" by {
      match FindFrom(s, pat, start)
      case None =>
      case Some(j) =>
        assert j > e;
    }
    assert p == x + "\n" + p[|x| + 1..];
    IndexOfPrefix(x, '\n', p[|x| + 1..]);
  }

  /** No window that starts on the line `x` or at its line break matches. */
  lemma NoMatchOnLine(s: string, pat: string, start: nat, x: string)
    requires pat != [] && '\n' !in pat && FindFrom(x, pat, 0).None?
    requires start + |x| < |s| && s[start..start + |x| + 1] == x + "\n"
    ensures forall j :: start <= j <= start + |x| ==> !MatchAt(s, pat, j)
  {
    var e := start + |x|;
    LineParts(s, start, x, e);
    forall j | start <= j <= e
      ensures !MatchAt(s, pat, j)
    {
      NoMatchOnLineAt(s, pat, start, x, e, j);
    }
  }

  /** A line `x` and its line break at `start` in `s`, located. */
  lemma LineParts(s: string, start: nat, x: string, e: nat)
    requires e == start + |x| < |s| && s[start..e + 1] == x + "\n"
    ensures s[start..e] == x && s[e] == '\n'
  {
    assert s[start..e] == s[start..e + 1][..|x|];
    assert s[e] == s[start..e + 1][|x|];
  }

  /** No match of `pat` starts at `j`, on the line `x` or at its line break. */
  lemma NoMatchOnLineAt(s: string, pat: string, start: nat, x: string, e: nat, j: nat)
    requires pat != [] && '\n' !in pat && FindFrom(x, pat, 0).None?
    requires e == start + |x| < |s| && s[start..e] == x && s[e] == '\n'
    requires start <= j <= e
    ensures !MatchAt(s, pat, j)
  {
    if j + |pat| <= e {
      WindowInside(s, start, x, pat, j);
    } else {
      WindowAcross(s, pat, j, e);
    }
  }

  /** A window inside the stretch `x` of `s` that starts at `start` matches
      `pat` exactly when the same window of `x` does. */
  lemma WindowInside(s: string, start: nat, x: string, pat: string, j: nat)
    requires start + |x| <= |s| && s[start..start + |x|] == x
    requires start <= j && j + |pat| <= start + |x|
    ensures MatchAt(s, pat, j) <==> MatchAt(x, pat, j - start)
  {
    var i := j - start;
    var w, v := s[j..j + |pat|], x[i..i + |pat|];
    forall k | 0 <= k < |pat|
      ensures w[k] == v[k]
    {
      assert x[i + k] == s[start..start + |x|][i + k];
    }
    assert w == v;
  }

  /** A window over a line break cannot match a `pat` that has none. */
  lemma WindowAcross(s: string, pat: string, j: nat, e: nat)
    requires '\n' !in pat && j <= e < |s| && e < j + |pat| && s[e] == '\n'
    ensures !MatchAt(s, pat, j)
  {
    if j + |pat| <= |s| {
      assert s[j..j + |pat|][e - j] == s[e];
    }
  }

  /** A text without the first character of `pat` holds no `pat`. */
  lemma NoMatchWithoutHead(s: string, pat: string)
    requires pat != [] && pat[0] !in s
    ensures FindFrom(s, pat, 0).None?
  {
    forall j | 0 <= j < |s|
      ensures !MatchAt(s, pat, j)
    {
      NoMatchAt(s, pat, j);
    }
  }

  /** Two lines that hold no `pat` do not hold it once joined by a line
      break, when `pat` does not span lines. */
  lemma NoMatchAcrossLine(l: string, r: string, pat: string)
    requires pat != [] && '\n' !in pat
    requires FindFrom(l, pat, 0).None? && FindFrom(r, pat, 0).None?
    ensures FindFrom(l + "\n" + r, pat, 0).None?
  {
    var s := l + "\n" + r;
    assert s[0..|l| + 1] == l + "\n";
    NoMatchOnLine(s, pat, 0, l);
    forall j | |l| < j && j + |pat| <= |s|
      ensures !MatchAt(s, pat, j)
    {
      WindowInside(s, |l| + 1, r, pat, j);
    }
  }

  /** `pat` is first found at `k`, after a line that holds no `pat`, a line
      break and a stretch `m` that lacks its first character. */
  lemma FirstMatchAfterLine(s: string, l: string, m: string, pat: string, k: nat)
    requires pat != [] && '\n' !in pat && FindFrom(l, pat, 0).None? && pat[0] !in m
    requires |l| + |m| < |s| && s[..|l| + 1] == l + "\n" && s[|l| + 1..|l| + 1 + |m|] == m
    requires k == |l| + 1 + |m| && MatchAt(s, pat, k)
    ensures FindFrom(s, pat, 0) == Some(k)
  {
    NoMatchBeforeTag(s, l, m, pat);
    FindFromAt(s, pat, 0, k);
  }

  /** No match starts on the line `l`, at its line break, or in `m`. */
  lemma NoMatchBeforeTag(s: string, l: string, m: string, pat: string)
    requires pat != [] && '\n' !in pat && FindFrom(l, pat, 0).None? && pat[0] !in m
    requires |l| + |m| < |s| && s[..|l| + 1] == l + "\n" && s[|l| + 1..|l| + 1 + |m|] == m
    ensures forall j :: 0 <= j < |l| + 1 + |m| ==> !MatchAt(s, pat, j)
  {
    assert s[0..|l| + 1] == l + "\n";
    NoMatchOnLine(s, pat, 0, l);
    NoMatchInStretch(s, pat, |l| + 1, m);
  }

  /** `split(pat)[1].split('\n')[0]` of a text laid out as a line `l` that
      holds no `pat`, a line break, a stretch `m` without `pat`'s first
      character, `pat`, then from `start` a line `x` that holds no `pat`:
      the result is `x`. */
  lemma PieceAfterFirstMatch(s: string, pat: string, l: string, m: string, x: string, k: nat, start: nat)
    requires pat != [] && '\n' !in pat && pat[0] !in m
    requires FindFrom(l, pat, 0).None? && FindFrom(x, pat, 0).None? && '\n' !in x
    requires |l| + |m| < |s| && s[..|l| + 1] == l + "\n" && s[|l| + 1..|l| + 1 + |m|] == m
    requires k == |l| + 1 + |m| && MatchAt(s, pat, k)
    requires start == k + |pat|
    requires start + |x| < |s| && s[start..start + |x| + 1] == x + "\n"
    ensures SplitSecond(s, pat).Some? && BeforeChar(SplitSecond(s, pat).value, '\n') == x
  {
    FirstMatchAfterLine(s, l, m, pat, k);
    LineAfterFirst(s, pat, k, start, x);
  }

  /** When the first `pat` is at `k` and a line `x` follows it,
      `split(pat)[1].split('\n')[0]` is `x`. */
  lemma LineAfterFirst(s: string, pat: string, k: nat, start: nat, x: string)
    requires pat != [] && FindFrom(s, pat, 0) == Some(k) && start == k + |pat|
    requires '\n' !in pat && '\n' !in x && FindFrom(x, pat, 0).None?
    requires start + |x| < |s| && s[start..start + |x| + 1] == x + "\n"
    ensures SplitSecond(s, pat).Some? && BeforeChar(SplitSecond(s, pat).value, '\n') == x
  {
    SplitSecondOfFirst(s, pat, k, start);
    PieceFromLine(s, pat, start, x);
  }

  /** `split(pat)[1]` is the piece after the first `pat`. */
  lemma SplitSecondOfFirst(s: string, pat: string, k: nat, start: nat)
    requires pat != [] && FindFrom(s, pat, 0) == Some(k) && start == k + |pat| <= |s|
    ensures SplitSecond(s, pat) == Some(PieceFrom(s, pat, start))
  {
  }

  /** No window that starts in a stretch lacking `pat`'s first character
      matches. */
  lemma NoMatchInStretch(s: string, pat: string, a: nat, m: string)
    requires pat != [] && pat[0] !in m && a + |m| <= |s| && s[a..a + |m|] == m
    ensures forall j :: a <= j < a + |m| ==> !MatchAt(s, pat, j)
  {
    forall j | a <= j < a + |m|
      ensures !MatchAt(s, pat, j)
    {
      assert s[j] == s[a..a + |m|][j - a];
      NoMatchAt(s, pat, j);
    }
  }

  /** `s.split(c)`: every piece between occurrences of `c`. */
  function SplitAll(s: string, c: char): (r: seq<string>)
    ensures |r| >= 1
    ensures forall i :: 0 <= i < |r| ==> c !in r[i]
    decreases |s|
  {
    match IndexOf(s, c)
    case None => [s]
    case Some(i) => [s[..i]] + SplitAll(s[i + 1..], c)
  }

  /** Joining pieces free of `c` with `c` and splitting on `c` gives the
      pieces back. */
  lemma {:induction false} SplitAllOfJoin(pieces: seq<string>, c: char)
    requires |pieces| >= 1
    requires forall i :: 0 <= i < |pieces| ==> c !in pieces[i]
    ensures SplitAll(Join(pieces, c), c) == pieces
    decreases |pieces|
  {
    if |pieces| == 1 {
      assert Join(pieces, c) == pieces[0];
    } else {
      var a := pieces[0];
      var tail := pieces[1..];
      assert c !in a;
      forall i | 0 <= i < |tail|
        ensures c !in tail[i]
      {
        assert tail[i] == pieces[i + 1];
      }
      SplitAllStep(a, c, Join(tail, c));
      SplitAllOfJoin(tail, c);
      assert pieces == [a] + tail;
    }
  }

  /** Splitting `a`, `c`, `rest` with `c` not in `a` cuts `a` off first. */
  lemma SplitAllStep(a: string, c: char, rest: string)
    requires c !in a
    ensures SplitAll(a + [c] + rest, c) == [a] + SplitAll(rest, c)
  {
    var s := a + [c] + rest;
    IndexOfPrefix(a, c, rest);
    assert s[..|a|] == a;
    assert s[|a| + 1..] == rest;
  }

  /** The run of word characters `s` starts with: what a greedy `\w*`
      anchored at the start takes. */
  function WordRun(s: string): (r: string)
    ensures |r| <= |s| && r == s[..|r|]
    ensures forall i :: 0 <= i < |r| ==> IsWordChar(r[i])
    ensures |r| == |s| || !IsWordChar(s[|r|])
  {
    if s != [] && IsWordChar(s[0]) then [s[0]] + WordRun(s[1..]) else []
  }

  /** The word run a text starts with is all of a word followed by a
      character outside `\w`. */
  lemma WordRunOfWord(w: string, rest: string)
    requires forall i :: 0 <= i < |w| ==> IsWordChar(w[i])
    requires rest == [] || !IsWordChar(rest[0])
    ensures WordRun(w + rest) == w
  {
    var s := w + rest;
    var r := WordRun(s);
    assert forall i :: 0 <= i < |w| ==> s[i] == w[i];
    assert |w| < |s| ==> s[|w|] == rest[0];
    assert r == s[..|r|];
  }

  /** `s.replace(c, '')`: every `c` goes, every other character stays as
      often as it was there. */
  function RemoveChar(s: string, c: char): (r: string)
    ensures c !in r
    ensures |r| <= |s|
    ensures c !in s ==> r == s
    ensures forall x :: x != c ==> multiset(r)[x] == multiset(s)[x]
  {
    if s == [] then []
    else
      assert s == [s[0]] + s[1..];
      (if s[0] == c then [] else [s[0]]) + RemoveChar(s[1..], c)
  }

  /** Removing works piece by piece, so the characters that stay keep their
      order. */
  lemma {:induction false} RemoveCharAppend(a: string, b: string, c: char)
    ensures RemoveChar(a + b, c) == RemoveChar(a, c) + RemoveChar(b, c)
    decreases |a|
  {
    if a != [] {
      assert (a + b)[0] == a[0] && (a + b)[1..] == a[1..] + b;
      RemoveCharAppend(a[1..], b, c);
    } else {
      assert a + b == b;
    }
  }
}
