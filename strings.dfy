/** The few `str` methods the bots use: `lower`, `upper`, `strip`, `split`, `join`,
    the `in` substring test and slicing. */
module Strings {

  predicate IsUpperAscii(c: char) { 'A' <= c <= 'Z' }
  predicate IsLowerAscii(c: char) { 'a' <= c <= 'z' }

  function LowerChar(c: char): (r: char)
    ensures !IsUpperAscii(r)
    ensures IsUpperAscii(c) ==> r as int == c as int + 32
    ensures !IsUpperAscii(c) ==> r == c
  {
    if IsUpperAscii(c) then (c as int + 32) as char else c
  }

  function UpperChar(c: char): (r: char)
    ensures !IsLowerAscii(r)
    ensures IsLowerAscii(c) ==> r as int == c as int - 32
    ensures !IsLowerAscii(c) ==> r == c
  {
    if IsLowerAscii(c) then (c as int - 32) as char else c
  }

  /** `s.lower()` on the ASCII letters. */
  function Lower(s: string): (r: string)
    ensures |r| == |s|
    ensures forall i :: 0 <= i < |s| ==> r[i] == LowerChar(s[i])
  {
    seq(|s|, i requires 0 <= i < |s| => LowerChar(s[i]))
  }

  /** `s.upper()` on the ASCII letters. */
  function Upper(s: string): (r: string)
    ensures |r| == |s|
    ensures forall i :: 0 <= i < |s| ==> r[i] == UpperChar(s[i])
  {
    seq(|s|, i requires 0 <= i < |s| => UpperChar(s[i]))
  }

  /** The characters for which Python's `str.isspace()` holds. */
  predicate IsSpace(c: char) {
    c == ' ' || '\t' <= c <= '\r' || '\U{1C}' <= c <= '\U{1F}' || c == '\U{85}' || c == '\U{A0}'
    || c == '\U{1680}' || '\U{2000}' <= c <= '\U{200A}' || c == '\U{2028}' || c == '\U{2029}'
    || c == '\U{202F}' || c == '\U{205F}' || c == '\U{3000}'
  }

  /** The end of the run of whitespace that starts at `i`. */
  function SpaceRunEnd(s: string, i: nat): (k: nat)
    requires i <= |s|
    ensures i <= k <= |s|
    ensures forall j :: i <= j < k ==> IsSpace(s[j])
    ensures k < |s| ==> !IsSpace(s[k])
    decreases |s| - i
  {
    if i < |s| && IsSpace(s[i]) then SpaceRunEnd(s, i + 1) else i
  }

  /** The start of the run of whitespace that ends at `j`, going back no further than `lo`. */
  function SpaceRunStart(s: string, lo: nat, j: nat): (m: nat)
    requires lo <= j <= |s|
    ensures lo <= m <= j
    ensures forall x :: m <= x < j ==> IsSpace(s[x])
    ensures m > lo ==> !IsSpace(s[m - 1])
    decreases j
  {
    if j > lo && IsSpace(s[j - 1]) then SpaceRunStart(s, lo, j - 1) else j
  }

  /** `s.strip()`: the longest infix with no whitespace at either end. */
  function Strip(s: string): (r: string)
  {
    var k := SpaceRunEnd(s, 0);
    s[k..SpaceRunStart(s, k, |s|)]
  }

  /** `strip` removes exactly the leading and trailing whitespace: the result is
      `s[k..m]`, its end characters are not whitespace, and everything before `k`
      and from `m` on is whitespace. */
  lemma StripShape(s: string)
    ensures var r := Strip(s);
      var k := SpaceRunEnd(s, 0);
      var m := SpaceRunStart(s, k, |s|);
      && k <= m <= |s| && r == s[k..m]
      && (r == [] || (!IsSpace(r[0]) && !IsSpace(r[|r| - 1])))
      && (forall i :: 0 <= i < k ==> IsSpace(s[i]))
      && (forall i :: m <= i < |s| ==> IsSpace(s[i]))
  {
    var k := SpaceRunEnd(s, 0);
    var m := SpaceRunStart(s, k, |s|);
    if k < m {
      assert Strip(s)[0] == s[k];
      assert Strip(s)[m - k - 1] == s[m - 1];
    }
  }

  /** `pat in text` for strings. */
  predicate Contains(text: string, pat: string)
    decreases |text|
  {
    pat <= text || (text != [] && Contains(text[1..], pat))
  }

  /** `pat` occurs in `text` starting at offset `k`. */
  predicate OccursAt(text: string, pat: string, k: int) {
    0 <= k && k + |pat| <= |text| && text[k..k + |pat|] == pat
  }

  /** A substring found by the recursive test occurs at some offset. */
  lemma {:induction false} ContainsOccurs(text: string, pat: string)
    requires Contains(text, pat)
    ensures exists k :: OccursAt(text, pat, k)
    decreases |text|
  {
    if pat <= text {
      assert OccursAt(text, pat, 0);
    } else {
      ContainsOccurs(text[1..], pat);
      var k :| OccursAt(text[1..], pat, k);
      assert text[1..][k..k + |pat|] == text[k + 1..k + 1 + |pat|];
      assert OccursAt(text, pat, k + 1);
    }
  }

  /** An occurrence at any offset is found by the recursive test. */
  lemma {:induction false} OccursContains(text: string, pat: string, k: int)
    requires OccursAt(text, pat, k)
    ensures Contains(text, pat)
    decreases k
  {
    if k == 0 {
      assert text[..|pat|] == pat;
    } else {
      assert text[1..][k - 1..k - 1 + |pat|] == text[k..k + |pat|];
      OccursContains(text[1..], pat, k - 1);
    }
  }

  /** An occurrence inside the left part of a concatenation is one of the left part. */
  lemma OccursInLeft(x: string, y: string, pat: string, k: int)
    requires OccursAt(x + y, pat, k) && k + |pat| <= |x|
    ensures OccursAt(x, pat, k)
  {
    assert x[k..k + |pat|] == (x + y)[k..k + |pat|];
  }

  /** An occurrence inside the right part of a concatenation is one of the right part. */
  lemma OccursInRight(x: string, y: string, pat: string, k: int)
    requires OccursAt(x + y, pat, k) && |x| <= k
    ensures OccursAt(y, pat, k - |x|)
  {
    assert y[k - |x|..k - |x| + |pat|] == (x + y)[k..k + |pat|];
  }

  /** A text contains each of its prefixes. */
  lemma ContainsStart(p: string, y: string)
    ensures Contains(p + y, p)
  {
    assert p <= p + y;
  }

  /** Text added after an occurrence keeps it. */
  lemma {:induction false} ContainsLeft(x: string, y: string, p: string)
    requires Contains(x, p)
    ensures Contains(x + y, p)
  {
    ContainsOccurs(x, p);
    var k :| OccursAt(x, p, k);
    assert (x + y)[k..k + |p|] == x[k..k + |p|];
    OccursContains(x + y, p, k);
  }

  /** Text added before an occurrence keeps it. */
  lemma {:induction false} ContainsRight(x: string, y: string, p: string)
    requires Contains(y, p)
    ensures Contains(x + y, p)
  {
    ContainsOccurs(y, p);
    var k :| OccursAt(y, p, k);
    assert (x + y)[|x| + k..|x| + k + |p|] == y[k..k + |p|];
    OccursContains(x + y, p, |x| + k);
  }

  /** `s.endswith(a)` */
  predicate EndsWith(s: string, a: string) {
    |a| <= |s| && s[|s| - |a|..] == a
  }

  lemma EndsWithSelf(a: string)
    ensures EndsWith(a, a)
  {
  }

  /** Text added before keeps every suffix. */
  lemma EndsWithAppend(x: string, y: string, a: string)
    requires EndsWith(y, a)
    ensures EndsWith(x + y, a)
  {
    assert (x + y)[|x + y| - |a|..] == y[|y| - |a|..];
  }

  /** `s[:n]` */
  function Take(s: string, n: nat): (r: string)
    ensures |r| <= n && r <= s
    ensures |s| >= n ==> |r| == n
    ensures |s| < n ==> r == s
  {
    if |s| <= n then s else s[..n]
  }

  /** Position of the first `c` in `s`. */
  function IndexOf(s: string, c: char): (k: nat)
    requires c in s
    ensures k < |s| && s[k] == c && c !in s[..k]
    decreases |s|
  {
    if s[0] == c then 0
    else
      var k := 1 + IndexOf(s[1..], c);
      assert s[..k] == [s[0]] + s[1..][..k - 1];
      k
  }

  /** Any position of `c` with no `c` before it is the one `IndexOf` finds. */
  lemma IndexOfUnique(s: string, c: char, k: nat)
    requires k < |s| && s[k] == c && c !in s[..k]
    ensures IndexOf(s, c) == k
  {
    var m := IndexOf(s, c);
    assert forall i :: 0 <= i < k ==> s[..k][i] == s[i];
    assert forall i :: 0 <= i < m ==> s[..m][i] == s[i];
  }

  /** `s.split(sep)` for a one-character separator. */
  function Split(s: string, sep: char): (parts: seq<string>)
    ensures |parts| >= 1
    ensures forall i :: 0 <= i < |parts| ==> sep !in parts[i]
    decreases |s|
  {
    if sep !in s then [s]
    else
      var k := IndexOf(s, sep);
      [s[..k]] + Split(s[k + 1..], sep)
  }

  /** `sep.join(parts)` */
  function Join(parts: seq<string>, sep: char): string
    decreases |parts|
  {
    if parts == [] then ""
    else if |parts| == 1 then parts[0]
    else parts[0] + [sep] + Join(parts[1..], sep)
  }

  /** The first piece of a split is the text before the first separator. */
  lemma {:induction false} SplitHead(s: string, sep: char)
    ensures var h := Split(s, sep)[0];
      h <= s && (|h| < |s| ==> s[|h|] == sep) && (sep in s ==> |h| < |s|)
  {
  }

  /** Every character of a joined piece sits at some position of the join. */
  lemma {:induction false} JoinPosition(parts: seq<string>, sep: char, i: nat, j: nat) returns (m: nat)
    requires i < |parts| && j < |parts[i]|
    ensures m < |Join(parts, sep)| && Join(parts, sep)[m] == parts[i][j]
    decreases |parts|
  {
    if |parts| == 1 {
      m := j;
    } else if i == 0 {
      assert Join(parts, sep) == parts[0] + ([sep] + Join(parts[1..], sep));
      m := j;
    } else {
      var rest := Join(parts[1..], sep);
      assert Join(parts, sep) == (parts[0] + [sep]) + rest;
      var m' := JoinPosition(parts[1..], sep, i - 1, j);
      m := |parts[0]| + 1 + m';
      assert Join(parts, sep)[m] == rest[m'];
    }
  }

  /** Joining the pieces of a split gives back the text. */
  lemma {:induction false} JoinSplit(s: string, sep: char)
    ensures Join(Split(s, sep), sep) == s
    decreases |s|
  {
    if sep in s {
      var k := IndexOf(s, sep);
      var tail := s[k + 1..];
      JoinSplit(tail, sep);
      SplitAtFirst(s, sep);
      JoinCons(s[..k], Split(tail, sep), sep);
      SliceAround(s, k);
    }
  }

  /** A text holding the separator splits into the text before its first
      occurrence and the pieces of the rest. */
  lemma {:induction false} SplitAtFirst(s: string, sep: char)
    requires sep in s
    ensures Split(s, sep) == [s[..IndexOf(s, sep)]] + Split(s[IndexOf(s, sep) + 1..], sep)
  {
    var k := IndexOf(s, sep);
    var tail := Split(s[k + 1..], sep);
    assert Split(s, sep) == [s[..k]] + tail;
  }

  lemma JoinCons(p: string, rest: seq<string>, sep: char)
    requires rest != []
    ensures Join([p] + rest, sep) == p + [sep] + Join(rest, sep)
  {
    assert ([p] + rest)[1..] == rest;
  }

  lemma SliceAround(s: string, k: nat)
    requires k < |s|
    ensures s == s[..k] + [s[k]] + s[k + 1..]
  {
  }

  /** Splitting a join of separator-free pieces gives back the pieces. */
  lemma {:induction false} SplitJoin(parts: seq<string>, sep: char)
    requires |parts| >= 1
    requires forall i :: 0 <= i < |parts| ==> sep !in parts[i]
    ensures Split(Join(parts, sep), sep) == parts
    decreases |parts|
  {
    if |parts| > 1 {
      var rest := parts[1..];
      var j := Join(parts, sep);
      assert j == parts[0] + [sep] + Join(rest, sep);
      assert j[|parts[0]|] == sep;
      assert j[..|parts[0]|] == parts[0];
      IndexOfUnique(j, sep, |parts[0]|);
      assert j[|parts[0]| + 1..] == Join(rest, sep);
      assert sep in j;
      assert Split(j, sep) == [parts[0]] + Split(Join(rest, sep), sep);
      SplitJoin(rest, sep);
      assert parts == [parts[0]] + rest;
    }
  }
}
