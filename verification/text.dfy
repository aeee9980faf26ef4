/**
 * ASCII-level models of the Python string operations the core relies on:
 * `str.isspace`, `str.lower`, `str.upper`, `str.strip`, `str.rstrip(c)`,
 * `in` (substring), `str.startswith`, `str.join`, and decimal rendering of integers.
 * Characters outside ASCII are treated as neither whitespace nor letters.
 */
module Text {

  /** Python's `str.isspace` restricted to ASCII: space, \t \n \v \f \r and \x1c-\x1f. */
  predicate IsSpace(c: char) {
    var n := c as int;
    n == 32 || (9 <= n <= 13) || (28 <= n <= 31)
  }

  predicate IsUpperCase(c: char) { 'A' <= c <= 'Z' }

  predicate IsLowerCase(c: char) { 'a' <= c <= 'z' }

  predicate IsDigit(c: char) { '0' <= c <= '9' }

  /** The regular-expression class `\w` on ASCII: letters, digits and underscore. */
  predicate IsWordChar(c: char) {
    IsUpperCase(c) || IsLowerCase(c) || IsDigit(c) || c == '_'
  }

  function LowerChar(c: char): (r: char)
    ensures !IsUpperCase(r)
    ensures IsUpperCase(c) ==> IsLowerCase(r) && r as int == c as int + 32
    ensures !IsUpperCase(c) ==> r == c
  {
    if IsUpperCase(c) then (c as int + 32) as char else c
  }

  function UpperChar(c: char): (r: char)
    ensures !IsLowerCase(r)
    ensures IsLowerCase(c) ==> IsUpperCase(r) && r as int == c as int - 32
    ensures !IsLowerCase(c) ==> r == c
  {
    if IsLowerCase(c) then (c as int - 32) as char else c
  }

  /** `s.lower()`: maps every character through LowerChar, keeping the length. */
  function Lower(s: string): (r: string)
    ensures |r| == |s|
    ensures forall i :: 0 <= i < |s| ==> r[i] == LowerChar(s[i])
  {
    if s == [] then [] else [LowerChar(s[0])] + Lower(s[1..])
  }

  /** `s.upper()`. */
  function Upper(s: string): (r: string)
    ensures |r| == |s|
    ensures forall i :: 0 <= i < |s| ==> r[i] == UpperChar(s[i])
  {
    if s == [] then [] else [UpperChar(s[0])] + Upper(s[1..])
  }

  predicate AllLower(s: string) {
    forall i :: 0 <= i < |s| ==> !IsUpperCase(s[i])
  }

  lemma LowerIsLower(s: string)
    ensures AllLower(Lower(s))
    ensures AllLower(s) ==> Lower(s) == s
  {
  }

  lemma LowerConcat(a: string, b: string)
    ensures Lower(a + b) == Lower(a) + Lower(b)
  {
    assert Lower(a + b) == Lower(a) + Lower(b);
  }

  predicate AllSpace(s: string) {
    forall i :: 0 <= i < |s| ==> IsSpace(s[i])
  }

  /** A string with no whitespace at either end (what `strip()` produces). */
  predicate Trimmed(s: string) {
    |s| == 0 || (!IsSpace(s[0]) && !IsSpace(s[|s| - 1]))
  }

  function LStripWith(s: string, drop: char -> bool): (r: string)
    ensures |r| <= |s| && r == s[|s| - |r|..]
    ensures forall i :: 0 <= i < |s| - |r| ==> drop(s[i])
    ensures |r| > 0 ==> !drop(r[0])
  {
    if |s| > 0 && drop(s[0]) then
      var r := LStripWith(s[1..], drop);
      assert s[1..][|s| - 1 - |r|..] == s[|s| - |r|..];
      assert forall i :: 1 <= i < |s| - |r| ==> s[i] == s[1..][i - 1];
      r
    else s
  }

  function RStripWith(s: string, drop: char -> bool): (r: string)
    ensures |r| <= |s| && r == s[..|r|]
    ensures forall i :: |r| <= i < |s| ==> drop(s[i])
    ensures |r| > 0 ==> !drop(r[|r| - 1])
  {
    if |s| > 0 && drop(s[|s| - 1]) then RStripWith(s[..|s| - 1], drop) else s
  }

  /** `s.strip()`: the longest middle part of `s` that neither starts nor ends with whitespace. */
  function Strip(s: string): (r: string)
    ensures Trimmed(r)
    ensures |r| <= |s|
  {
    RStripWith(LStripWith(s, IsSpace), IsSpace)
  }

  /** What `Strip` removes is whitespace at either end, and nothing else. */
  lemma StripSlice(s: string) returns (i: nat, j: nat)
    ensures i <= j <= |s| && Strip(s) == s[i..j]
    ensures AllSpace(s[..i]) && AllSpace(s[j..])
  {
    var l := LStripWith(s, IsSpace);
    var r := RStripWith(l, IsSpace);
    i, j := |s| - |l|, |s| - |l| + |r|;
    SpaceAfterPrefix(s, i, l, r);
    assert AllSpace(s[..i]) by {
      forall m | 0 <= m < i
        ensures IsSpace(s[..i][m])
      {
      }
    }
  }

  /** A prefix `r` of the suffix `l == s[i..]`, followed by whitespace only, sits at `s[i..i + |r|]`. */
  lemma SpaceAfterPrefix(s: string, i: nat, l: string, r: string)
    requires i <= |s| && l == s[i..]
    requires |r| <= |l| && r == l[..|r|]
    requires forall k :: |r| <= k < |l| ==> IsSpace(l[k])
    ensures s[i..i + |r|] == r
    ensures AllSpace(s[i + |r|..])
  {
    var t := s[i + |r|..];
    forall m | 0 <= m < |t|
      ensures IsSpace(t[m])
    {
      assert t[m] == l[|r| + m];
    }
  }

  /** Stripping leaves nothing exactly when the text is all whitespace. */
  lemma StripEmptyIff(s: string)
    ensures Strip(s) == [] <==> AllSpace(s)
  {
    var l := LStripWith(s, IsSpace);
    if |l| > 0 {
      assert l[0] == s[|s| - |l|];
    }
  }

  lemma StripTrimmed(s: string)
    requires Trimmed(s)
    ensures Strip(s) == s
  {
  }

  /** `s.rstrip(c)` for a single character `c`. */
  function RStripChar(s: string, c: char): (r: string)
    ensures |r| <= |s| && r == s[..|r|]
    ensures |r| > 0 ==> r[|r| - 1] != c
    ensures forall i :: |r| <= i < |s| ==> s[i] == c
  {
    RStripWith(s, x => x == c)
  }

  /** `s.strip(c)` for a single character `c`. */
  function StripChar(s: string, c: char): (r: string)
    ensures |r| > 0 ==> r[0] != c && r[|r| - 1] != c
    ensures |r| <= |s|
  {
    RStripWith(LStripWith(s, x => x == c), x => x == c)
  }

  /** `StripChar` keeps a contiguous middle part of its input. */
  lemma StripCharSlice(s: string, c: char)
    ensures exists i, j :: 0 <= i <= j <= |s| && StripChar(s, c) == s[i..j]
  {
    var l := LStripWith(s, x => x == c);
    var r := RStripWith(l, x => x == c);
    assert r == s[|s| - |l|..|s| - |l| + |r|];
  }

  predicate StartsWith(s: string, prefix: string) {
    |prefix| <= |s| && s[..|prefix|] == prefix
  }

  /** Python's `needle in hay` for strings. */
  predicate Contains(hay: string, needle: string) {
    exists i :: 0 <= i <= |hay| - |needle| && OccursAt(hay, needle, i)
  }

  /** `needle` starts at position `i` of `hay`. */
  predicate OccursAt(hay: string, needle: string, i: int) {
    0 <= i <= |hay| - |needle| && hay[i..i + |needle|] == needle
  }

  /** `needle` occurs in `a + needle + b`. */
  lemma ContainsMiddle(a: string, needle: string, b: string)
    ensures Contains(a + needle + b, needle)
  {
    var s := a + needle + b;
    assert OccursAt(s, needle, |a|);
  }

  lemma ContainsInLarger(a: string, b: string, needle: string)
    requires Contains(b, needle)
    ensures Contains(a + b, needle) && Contains(b + a, needle)
  {
    var i :| 0 <= i <= |b| - |needle| && OccursAt(b, needle, i);
    assert (a + b)[|a| + i..|a| + i + |needle|] == needle;
    assert OccursAt(a + b, needle, |a| + i);
    assert (b + a)[i..i + |needle|] == needle;
    assert OccursAt(b + a, needle, i);
  }

  /** `sep.join(parts)`. */
  function Join(sep: string, parts: seq<string>): (r: string)
    ensures |parts| == 1 ==> r == parts[0]
    ensures |parts| > 0 ==> |r| >= |parts[0]| && r[..|parts[0]|] == parts[0]
  {
    if |parts| == 0 then ""
    else if |parts| == 1 then parts[0]
    else parts[0] + sep + Join(sep, parts[1..])
  }

  /** A join of a non-empty tail behind `h` is `h`, the separator, and the join of the tail. */
  lemma JoinCons(sep: string, h: string, rest: seq<string>)
    requires |rest| > 0
    ensures Join(sep, [h] + rest) == h + sep + Join(sep, rest)
  {
    assert ([h] + rest)[1..] == rest;
  }

  /** Joining two non-empty lists is joining each and putting the separator between them. */
  lemma {:induction false} JoinAppend(sep: string, a: seq<string>, b: seq<string>)
    requires |a| > 0 && |b| > 0
    ensures Join(sep, a + b) == Join(sep, a) + sep + Join(sep, b)
    decreases |a|
  {
    if |a| == 1 {
      assert (a + b)[1..] == b;
    } else {
      assert (a + b)[1..] == a[1..] + b;
      JoinAppend(sep, a[1..], b);
    }
  }

  function DigitChar(d: nat): (c: char)
    requires d < 10
    ensures IsDigit(c)
  {
    ('0' as int + d) as char
  }

  /** Decimal rendering of a natural number (`str(n)` for n >= 0). */
  function NatToString(n: nat): (r: string)
    ensures |r| > 0
    ensures forall i :: 0 <= i < |r| ==> IsDigit(r[i])
  {
    if n < 10 then [DigitChar(n)] else NatToString(n / 10) + [DigitChar(n % 10)]
  }

  /** Decimal rendering of an integer (`str(n)`). */
  function IntToString(n: int): (r: string)
    ensures |r| > 0
    ensures forall i :: 0 <= i < |r| ==> IsDigit(r[i]) || r[i] == '-'
  {
    if n < 0 then "-" + NatToString(-n) else NatToString(n)
  }

  /** `s.split(c)` for a single-character separator: the pieces between separators, in order. */
  function Split(s: string, c: char): (r: seq<string>)
    ensures |r| > 0
    ensures forall i :: 0 <= i < |r| ==> c !in r[i]
    decreases |s|
  {
    SplitFrom(s, c, [])
  }

  /** Splitting with `acc` already collected as the current piece. */
  function SplitFrom(s: string, c: char, acc: string): (r: seq<string>)
    requires c !in acc
    ensures |r| > 0
    ensures forall i :: 0 <= i < |r| ==> c !in r[i]
    decreases |s|
  {
    if |s| == 0 then [acc]
    else if s[0] == c then [acc] + SplitFrom(s[1..], c, [])
    else SplitFrom(s[1..], c, acc + [s[0]])
  }

  /** Splitting a piece free of the separator, followed by more text. */
  lemma {:induction false} SplitFromPiece(p: string, rest: string, c: char, acc: string)
    requires c !in acc && c !in p
    ensures SplitFrom(p + rest, c, acc) == SplitFrom(rest, c, acc + p)
    decreases |p|
  {
    if |p| > 0 {
      assert (p + rest)[0] == p[0];
      assert (p + rest)[1..] == p[1..] + rest;
      assert acc + [p[0]] + p[1..] == acc + p;
      SplitFromPiece(p[1..], rest, c, acc + [p[0]]);
    } else {
      assert p + rest == rest;
      assert acc + p == acc;
    }
  }

  /** Joining separator-free pieces and splitting again gives the pieces back. */
  lemma {:induction false} SplitJoin(parts: seq<string>, c: char)
    requires |parts| > 0
    requires forall i :: 0 <= i < |parts| ==> c !in parts[i]
    ensures Split(Join([c], parts), c) == parts
    decreases |parts|
  {
    if |parts| == 1 {
      SplitFromPiece(parts[0], [], c, []);
      assert parts[0] + [] == parts[0];
      assert [] + parts[0] == parts[0];
    } else {
      var tail := Join([c], parts[1..]);
      assert Join([c], parts) == parts[0] + ([c] + tail);
      SplitFromPiece(parts[0], [c] + tail, c, []);
      assert [] + parts[0] == parts[0];
      assert ([c] + tail)[1..] == tail;
      SplitJoin(parts[1..], c);
      assert parts == [parts[0]] + parts[1..];
    }
  }

  /** `s.replace(pat, rep)`: every non-overlapping occurrence of `pat`, scanning left to right. */
  function ReplaceAll(s: string, pat: string, rep: string): string
    requires |pat| > 0
    decreases |s|
  {
    if |s| < |pat| then s
    else if s[..|pat|] == pat then rep + ReplaceAll(s[|pat|..], pat, rep)
    else [s[0]] + ReplaceAll(s[1..], pat, rep)
  }

  /** A prefix without the pattern's first character passes through unchanged. */
  lemma {:induction false} ReplaceAllSkips(a: string, b: string, pat: string, rep: string)
    requires |pat| > 0 && forall k :: 0 <= k < |a| ==> a[k] != pat[0]
    ensures ReplaceAll(a + b, pat, rep) == a + ReplaceAll(b, pat, rep)
    decreases |a|
  {
    if |a| == 0 {
      assert a + b == b;
    } else {
      var s := a + b;
      if |s| < |pat| {
        ReplaceAllShort(s, pat, rep);
        ReplaceAllShort(b, pat, rep);
      } else {
        assert ReplaceAll(s, pat, rep) == [a[0]] + ReplaceAll(a[1..] + b, pat, rep) by {
          assert s[..|pat|][0] == a[0];
          assert s[1..] == a[1..] + b;
        }
        assert forall k :: 0 <= k < |a[1..]| ==> a[1..][k] != pat[0] by {
          assert forall k :: 0 <= k < |a[1..]| ==> a[1..][k] == a[k + 1];
        }
        ReplaceAllSkips(a[1..], b, pat, rep);
        assert [a[0]] + (a[1..] + ReplaceAll(b, pat, rep)) == a + ReplaceAll(b, pat, rep);
      }
    }
  }

  /** Text shorter than the pattern is left alone. */
  lemma ReplaceAllShort(s: string, pat: string, rep: string)
    requires 0 < |pat| && |s| < |pat|
    ensures ReplaceAll(s, pat, rep) == s
  {
  }

  /** An occurrence at the front is replaced, and the scan continues after it. */
  lemma ReplaceAllFront(pat: string, b: string, rep: string)
    requires |pat| > 0
    ensures ReplaceAll(pat + b, pat, rep) == rep + ReplaceAll(b, pat, rep)
  {
    assert (pat + b)[..|pat|] == pat;
    assert (pat + b)[|pat|..] == b;
  }

  /**
   * Python's `repr` of a string without backslashes or control characters:
   * single quotes, or double quotes when the text holds a single quote and
   * no double quote.
   */
  function StrRepr(s: string): (r: string)
    ensures |r| == |s| + 2
  {
    if '\'' in s && '"' !in s then "\"" + s + "\"" else "'" + s + "'"
  }

  /** Python's `repr` (and `str`) of a list of such strings. */
  function ListRepr(xs: seq<string>): (r: string)
    ensures |r| >= 2 && r[0] == '[' && r[|r| - 1] == ']'
  {
    "[" + Join(", ", Reprs(xs)) + "]"
  }

  function Reprs(xs: seq<string>): (r: seq<string>)
    ensures |r| == |xs|
    ensures forall i :: 0 <= i < |xs| ==> r[i] == StrRepr(xs[i])
  {
    if |xs| == 0 then [] else [StrRepr(xs[0])] + Reprs(xs[1..])
  }

  /** `s.endswith(suffix)`. */
  predicate EndsWith(s: string, suffix: string) {
    |suffix| <= |s| && s[|s| - |suffix|..] == suffix
  }

  /** `s.replace(a, b)` for single characters. */
  function ReplaceChar(s: string, a: char, b: char): (r: string)
    ensures |r| == |s|
    ensures forall i :: 0 <= i < |s| ==> r[i] == (if s[i] == a then b else s[i])
  {
    if |s| == 0 then [] else [if s[0] == a then b else s[0]] + ReplaceChar(s[1..], a, b)
  }

  predicate IsCased(c: char) { IsUpperCase(c) || IsLowerCase(c) }

  /** `str.title` on ASCII, continuing after a character that was (or was not) a letter. */
  function TitleFrom(s: string, afterLetter: bool): (r: string)
    ensures |r| == |s|
    ensures forall i :: 0 <= i < |s| && !IsCased(s[i]) ==> r[i] == s[i]
    ensures |s| > 0 && !afterLetter ==> r[0] == UpperChar(s[0])
  {
    if |s| == 0 then []
    else [if afterLetter then LowerChar(s[0]) else UpperChar(s[0])] + TitleFrom(s[1..], IsCased(s[0]))
  }

  /** `s.title()`: each run of letters starts upper-case and continues lower-case. */
  function Title(s: string): (r: string)
    ensures |r| == |s|
  {
    TitleFrom(s, false)
  }

  /** `c * n`. */
  function Repeat(c: char, n: nat): (r: string)
    ensures |r| == n
    ensures forall i :: 0 <= i < n ==> r[i] == c
  {
    if n == 0 then [] else [c] + Repeat(c, n - 1)
  }

  /** A join ends with its last part. */
  lemma {:induction false} JoinEndsWith(sep: string, parts: seq<string>)
    requires |parts| > 0
    ensures EndsWith(Join(sep, parts), parts[|parts| - 1])
    decreases |parts|
  {
    if |parts| > 1 {
      JoinEndsWith(sep, parts[1..]);
      var j := Join(sep, parts[1..]);
      assert Join(sep, parts) == (parts[0] + sep) + j;
      var last := parts[|parts| - 1];
      assert ((parts[0] + sep) + j)[|(parts[0] + sep) + j| - |last|..] == j[|j| - |last|..];
    }
  }
}
