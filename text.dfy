/** The JavaScript string operations the application relies on: `trim`,
    `indexOf`, `includes`, `substring`, `split` on a single character,
    `toLowerCase` and the `\s` and `\d` character classes. Strings are
    sequences of Unicode characters; JavaScript's are sequences of UTF-16
    code units, and the two differ only for characters beyond U+FFFF,
    which JavaScript stores as two units. */
module Text {

  /** ECMAScript WhiteSpace and LineTerminator code points: the set that both
      the regular-expression class `\s` and `String.prototype.trim` use. */
  predicate IsSpace(c: char) {
    ('\t' <= c <= '\r') || c == ' ' || c == '\U{00A0}' || c == '\U{1680}' ||
    ('\U{2000}' <= c <= '\U{200A}') || c == '\U{2028}' || c == '\U{2029}' ||
    c == '\U{202F}' || c == '\U{205F}' || c == '\U{3000}' || c == '\U{FEFF}'
  }

  /** No digit, letter or punctuation below U+0080 other than the space and
      the control characters TAB to CR is white space. */
  lemma {:induction false} PrintableAsciiIsNotSpace(c: char)
    requires '!' <= c <= '~'
    ensures !IsSpace(c)
  {
  }

  /** The line feed is white space. */
  lemma {:induction false} NewlineIsSpace()
    ensures IsSpace('\n')
  {
  }

  /** The regular-expression class `\d`. */
  predicate IsDigit(c: char) {
    '0' <= c <= '9'
  }

  /** A string with no white space at either end. */
  predicate IsTrimmed(s: string) {
    s == [] || (!IsSpace(s[0]) && !IsSpace(s[|s| - 1]))
  }

  /** The length of the longest run of white space starting at `i`. */
  function SpaceRun(s: string, i: nat): (n: nat)
    requires i <= |s|
    ensures i + n <= |s|
    decreases |s| - i
  {
    if i < |s| && IsSpace(s[i]) then 1 + SpaceRun(s, i + 1) else 0
  }

  /** The run is white space and cannot be extended. */
  lemma {:induction false} SpaceRunIsMaximal(s: string, i: nat)
    requires i <= |s|
    ensures forall k :: i <= k < i + SpaceRun(s, i) ==> IsSpace(s[k])
    ensures i + SpaceRun(s, i) == |s| || !IsSpace(s[i + SpaceRun(s, i)])
    decreases |s| - i
  {
    if i < |s| && IsSpace(s[i]) {
      SpaceRunIsMaximal(s, i + 1);
    }
  }

  /** The length of the longest run of white space ending just before `j`
      and not reaching below `lo`. */
  function SpaceRunBefore(s: string, j: nat, lo: nat): (n: nat)
    requires lo <= j <= |s|
    ensures lo + n <= j
    decreases j
  {
    if j > lo && IsSpace(s[j - 1]) then 1 + SpaceRunBefore(s, j - 1, lo) else 0
  }

  /** The run is white space and cannot be extended downwards above `lo`. */
  lemma {:induction false} SpaceRunBeforeIsMaximal(s: string, j: nat, lo: nat)
    requires lo <= j <= |s|
    ensures forall k :: j - SpaceRunBefore(s, j, lo) <= k < j ==> IsSpace(s[k])
    ensures j - SpaceRunBefore(s, j, lo) == lo || !IsSpace(s[j - SpaceRunBefore(s, j, lo) - 1])
    decreases j
  {
    if j > lo && IsSpace(s[j - 1]) {
      SpaceRunBeforeIsMaximal(s, j - 1, lo);
    }
  }

  /** `String.prototype.trim`: the slice of `s` left once the white space at
      both ends is cut off. */
  function Trim(s: string): (r: string)
    ensures IsTrimmed(r)
    ensures var a := SpaceRun(s, 0);
      a + |r| <= |s| && r == s[a..a + |r|] &&
      (forall k :: 0 <= k < a ==> IsSpace(s[k])) &&
      (forall k :: a + |r| <= k < |s| ==> IsSpace(s[k]))
    ensures IsTrimmed(s) ==> r == s
    ensures forall x :: x in r ==> x in s
  {
    var a := SpaceRun(s, 0);
    var b := |s| - SpaceRunBefore(s, |s|, a);
    TrimBounds(s);
    SliceMembers(s, a, b);
    s[a..b]
  }

  /** The cut made by `Trim` takes off white space only, and all of it. */
  lemma {:induction false} TrimBounds(s: string)
    ensures var a := SpaceRun(s, 0);
      var b := |s| - SpaceRunBefore(s, |s|, a);
      a <= b && IsTrimmed(s[a..b]) &&
      (forall k :: 0 <= k < a ==> IsSpace(s[k])) &&
      (forall k :: b <= k < |s| ==> IsSpace(s[k])) &&
      (IsTrimmed(s) ==> a == 0 && b == |s|)
  {
    var a := SpaceRun(s, 0);
    SpaceRunIsMaximal(s, 0);
    SpaceRunBeforeIsMaximal(s, |s|, a);
  }

  /** Every character of a slice is a character of the whole. */
  lemma {:induction false} SliceMembers(s: string, a: nat, b: nat)
    requires a <= b <= |s|
    ensures forall x :: x in s[a..b] ==> x in s
  {
    forall x | x in s[a..b] ensures x in s {
      var k :| 0 <= k < b - a && s[a..b][k] == x;
      assert s[a + k] == x;
    }
  }

  /** `pat` occurs in `s` starting at index `i`. */
  predicate OccursAt(s: string, pat: string, i: int) {
    0 <= i && i + |pat| <= |s| && s[i..i + |pat|] == pat
  }

  /** The first occurrence of `pat` at or after `from`, or -1. */
  function IndexOfFrom(s: string, pat: string, from: nat): (r: int)
    ensures r == -1 || (from <= r && OccursAt(s, pat, r))
    ensures forall i :: from <= i && (r == -1 || i < r) ==> !OccursAt(s, pat, i)
    decreases |s| - from
  {
    if from + |pat| > |s| then -1
    else if s[from..from + |pat|] == pat then from
    else IndexOfFrom(s, pat, from + 1)
  }

  /** `String.prototype.indexOf`: the first occurrence of `pat`, or -1. */
  function IndexOf(s: string, pat: string): (r: int)
    ensures r == -1 <==> forall i :: !OccursAt(s, pat, i)
    ensures r != -1 ==> OccursAt(s, pat, r) && forall i :: 0 <= i < r ==> !OccursAt(s, pat, i)
  {
    IndexOfFrom(s, pat, 0)
  }

  /** An occurrence with none before it is the one `indexOf` reports. */
  lemma {:induction false} IndexOfIs(s: string, pat: string, i: nat)
    requires OccursAt(s, pat, i) && forall j :: 0 <= j < i ==> !OccursAt(s, pat, j)
    ensures IndexOf(s, pat) == i
  {
  }

  /** `String.prototype.includes`. */
  predicate Contains(s: string, pat: string) {
    IndexOf(s, pat) != -1
  }

  /** Clamps a `substring` argument into `0..len`. */
  function Clamp(x: int, len: nat): nat {
    if x < 0 then 0 else if x > len then len else x
  }

  /** `String.prototype.substring(start, end)`: both bounds are clamped to the
      string and swapped when `start` is past `end`. */
  function Substring(s: string, start: int, end: int): (r: string)
    ensures 0 <= start <= end <= |s| ==> r == s[start..end]
    ensures 0 <= end <= start <= |s| ==> r == s[end..start]
    ensures start <= 0 && |s| <= end ==> r == s
    ensures |r| <= |s|
  {
    var a, b := Clamp(start, |s|), Clamp(end, |s|);
    if a <= b then s[a..b] else s[b..a]
  }

  /** `String.prototype.substring(start)`. */
  function SubstringFrom(s: string, start: int): string {
    Substring(s, start, |s|)
  }

  /** Cutting at the end of a prefix leaves the rest. */
  lemma {:induction false} SubstringFromConcat(x: string, y: string)
    ensures SubstringFrom(x + y, |x|) == y
  {
    assert (x + y)[|x|..|x + y|] == y;
  }

  /** `String.prototype.split(sep)` for a one-character separator. */
  function SplitOn(s: string, sep: char): (r: seq<string>)
    ensures |r| >= 1
    ensures forall k :: 0 <= k < |r| ==> sep !in r[k]
  {
    if s == [] then [""]
    else
      var rest := SplitOn(s[1..], sep);
      if s[0] == sep then [""] + rest
      else [[s[0]] + rest[0]] + rest[1..]
  }

  /** One step of the split: the first character either closes an empty
      piece or opens the first piece of the rest. */
  lemma {:induction false} SplitOnCons(c: char, t: string, sep: char)
    ensures SplitOn([c] + t, sep) ==
      if c == sep then [""] + SplitOn(t, sep)
      else [[c] + SplitOn(t, sep)[0]] + SplitOn(t, sep)[1..]
  {
    assert ([c] + t)[0] == c && ([c] + t)[1..] == t;
  }

  /** Prepending to the first of two joined lists. */
  lemma {:induction false} PrependToJoined<T>(x: T, rest: seq<T>, ra: seq<T>, rb: seq<T>)
    requires rest == ra + rb && |ra| >= 1
    ensures rest[0] == ra[0] && [x] + rest[1..] == ([x] + ra[1..]) + rb
  {
  }

  /** Splitting at a separator between two texts splits each on its own. */
  lemma {:induction false} SplitOnConcat(a: string, b: string, sep: char)
    ensures SplitOn(a + [sep] + b, sep) == SplitOn(a, sep) + SplitOn(b, sep)
  {
    if a == [] {
      assert a + [sep] + b == [sep] + b;
      SplitOnCons(sep, b, sep);
    } else {
      var t := a[1..] + [sep] + b;
      assert a + [sep] + b == [a[0]] + t;
      SplitOnCons(a[0], t, sep);
      SplitOnConcat(a[1..], b, sep);
      var ra, rb := SplitOn(a[1..], sep), SplitOn(b, sep);
      if a[0] == sep {
        assert SplitOn(a, sep) == [""] + ra;
      } else {
        assert SplitOn(a, sep) == [[a[0]] + ra[0]] + ra[1..];
        PrependToJoined([a[0]] + ra[0], SplitOn(t, sep), ra, rb);
      }
    }
  }

  /** `Array.prototype.join(sep)` for a one-character separator. */
  function JoinWith(parts: seq<string>, sep: char): string
    requires |parts| >= 1
  {
    if |parts| == 1 then parts[0] else parts[0] + [sep] + JoinWith(parts[1..], sep)
  }

  /** Splitting and re-joining on the same separator gives back the text. */
  lemma {:induction false} SplitOnJoin(s: string, sep: char)
    ensures JoinWith(SplitOn(s, sep), sep) == s
  {
    if s != [] {
      var rest := SplitOn(s[1..], sep);
      SplitOnJoin(s[1..], sep);
      if s[0] == sep {
        assert SplitOn(s, sep) == [""] + rest;
        assert ([""] + rest)[1..] == rest;
      } else {
        var r := SplitOn(s, sep);
        assert r == [[s[0]] + rest[0]] + rest[1..];
        if |rest| == 1 {
          assert r == [[s[0]] + rest[0]];
        } else {
          assert r[1..] == rest[1..];
          assert JoinWith(rest, sep) == rest[0] + [sep] + JoinWith(rest[1..], sep);
        }
      }
    }
  }

  /** A text without the separator splits into itself alone. */
  lemma {:induction false} SplitOnWithoutSeparator(s: string, sep: char)
    requires sep !in s
    ensures SplitOn(s, sep) == [s]
  {
    if s != [] {
      SplitOnWithoutSeparator(s[1..], sep);
      assert [s[0]] + s[1..] == s;
    }
  }

  /** Every character other than `c`, in order: `replace(/c+/g, '')`. */
  function RemoveAll(s: string, c: char): (r: string)
    ensures c !in r
    ensures forall x :: x in r ==> x in s
    ensures |r| <= |s|
  {
    if s == [] then []
    else (if s[0] == c then [] else [s[0]]) + RemoveAll(s[1..], c)
  }

  /** Removing a character the text does not hold changes nothing. */
  lemma {:induction false} RemoveAllAbsent(s: string, c: char)
    requires c !in s
    ensures RemoveAll(s, c) == s
  {
    if s != [] {
      RemoveAllAbsent(s[1..], c);
      assert [s[0]] + s[1..] == s;
    }
  }

  /** Lower case of one character; only A-Z are mapped. */
  function LowerChar(c: char): char {
    if 'A' <= c <= 'Z' then (c as int + 32) as char else c
  }

  /** `String.prototype.toLowerCase`, restricted to ASCII letters. */
  function ToLower(s: string): (r: string)
    ensures |r| == |s|
    ensures forall k :: 0 <= k < |s| ==> r[k] == LowerChar(s[k])
  {
    seq(|s|, k requires 0 <= k < |s| => LowerChar(s[k]))
  }

  /** `toLowerCase` commutes with slicing, so it keeps an occurrence in place. */
  lemma {:induction false} LowerOccurs(s: string, pat: string, i: int)
    requires OccursAt(s, pat, i)
    ensures OccursAt(ToLower(s), ToLower(pat), i)
  {
    assert ToLower(s)[i..i + |pat|] == ToLower(pat);
  }

  /** An occurrence inside `y` is an occurrence, shifted, inside `x + y + z`. */
  lemma {:induction false} OccursInside(x: string, y: string, z: string, pat: string, i: int)
    requires OccursAt(y, pat, i)
    ensures OccursAt(x + y + z, pat, |x| + i)
  {
    assert (x + y + z)[|x| + i..|x| + i + |pat|] == y[i..i + |pat|];
  }

  /** An occurrence stays where it is when text is appended. */
  lemma {:induction false} OccursBeforeSuffix(x: string, y: string, pat: string, i: int)
    requires OccursAt(x, pat, i)
    ensures OccursAt(x + y, pat, i)
  {
    assert (x + y)[i..i + |pat|] == x[i..i + |pat|];
  }

  /** What a text contains, it still contains with two pieces appended. */
  lemma {:induction false} ContainsExtended(x: string, y: string, z: string, pat: string)
    requires Contains(x, pat)
    ensures Contains(x + y + z, pat)
  {
    var i := IndexOf(x, pat);
    OccursBeforeSuffix(x, y, pat, i);
    OccursBeforeSuffix(x + y, z, pat, i);
  }

  /** The second piece of a concatenation is its end. */
  lemma {:induction false} SuffixOf(x: string, y: string)
    ensures (x + y)[|x + y| - |y|..] == y
  {
  }

  /** Three adjacent pieces occur together right after what precedes them. */
  lemma {:induction false} PiecesOccur(p: string, a: string, b: string, c: string)
    ensures OccursAt(p + a + b + c, a + b + c, |p|)
  {
    assert (p + a + b + c)[|p|..|p| + |a + b + c|] == a + b + c;
  }

  /** `toLowerCase` distributes over concatenation. */
  lemma {:induction false} LowerConcat(x: string, y: string)
    ensures ToLower(x + y) == ToLower(x) + ToLower(y)
  {
    assert forall k :: 0 <= k < |x + y| ==> ToLower(x + y)[k] == (ToLower(x) + ToLower(y))[k];
  }

  /** Lower-casing twice is lower-casing once. */
  lemma {:induction false} LowerIdempotent(s: string)
    ensures ToLower(ToLower(s)) == ToLower(s)
  {
    assert forall k :: 0 <= k < |s| ==> ToLower(ToLower(s))[k] == ToLower(s)[k];
  }
}
