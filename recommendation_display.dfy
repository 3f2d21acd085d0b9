/** The recommendation renderer: splits the model's reply into a title and a
    list of sections at the numbered-item delimiter `\n\s*\d+\.\s+`, finds each
    section's heading, cuts its body into paragraphs, and lists the sources. */
module RecommendationDisplay {
  import opened Wrappers
  import opened Text
  import opened Seqs
  import opened Types

  const DEFAULT_TITLE: string := "AI Pricing Recommendation"

  // ---------------------------------------------------------------------------
  // The delimiter `\n\s*\d+\.\s+` as an explicit recogniser
  // ---------------------------------------------------------------------------

  /** The length of the longest run of digits starting at `i`. */
  function DigitRun(s: string, i: nat): (n: nat)
    requires i <= |s|
    ensures i + n <= |s|
    decreases |s| - i
  {
    if i < |s| && IsDigit(s[i]) then 1 + DigitRun(s, i + 1) else 0
  }

  /** The run is made of digits and cannot be extended. */
  lemma {:induction false} DigitRunIsMaximal(s: string, i: nat)
    requires i <= |s|
    ensures forall k :: i <= k < i + DigitRun(s, i) ==> IsDigit(s[k])
    ensures i + DigitRun(s, i) == |s| || !IsDigit(s[i + DigitRun(s, i)])
    decreases |s| - i
  {
    if i < |s| && IsDigit(s[i]) {
      DigitRunIsMaximal(s, i + 1);
    }
  }

  /** The length of the run of `#` starting at `i`. */
  function HashRun(s: string, i: nat): (n: nat)
    requires i <= |s|
    ensures i + n <= |s|
    decreases |s| - i
  {
    if i < |s| && s[i] == '#' then 1 + HashRun(s, i + 1) else 0
  }

  /** The run is made of `#` and cannot be extended. */
  lemma {:induction false} HashRunIsMaximal(s: string, i: nat)
    requires i <= |s|
    ensures forall k :: i <= k < i + HashRun(s, i) ==> s[k] == '#'
    ensures i + HashRun(s, i) == |s| || s[i + HashRun(s, i)] != '#'
    decreases |s| - i
  {
    if i < |s| && s[i] == '#' {
      HashRunIsMaximal(s, i + 1);
    }
  }

  /** One way the pattern matches: a newline, `lead` white-space characters,
      `digits` digits, a period and `trail` white-space characters. */
  datatype DelimiterMatch = DelimiterMatch(lead: nat, digits: nat, trail: nat) {
    function Length(): nat {
      lead + digits + trail + 2
    }
  }

  /** `m` is a match of the pattern at `i`, read off the regular expression
      element by element, with no preference among quantifier counts. */
  ghost predicate Fits(s: string, i: nat, m: DelimiterMatch) {
    var d := i + 1 + m.lead;
    var p := d + m.digits;
    i + m.Length() <= |s| && s[i] == '\n' &&
    (forall k :: i + 1 <= k < d ==> IsSpace(s[k])) &&
    m.digits >= 1 && (forall k :: d <= k < p ==> IsDigit(s[k])) &&
    s[p] == '.' &&
    m.trail >= 1 && (forall k :: p + 1 <= k < p + 1 + m.trail ==> IsSpace(s[k]))
  }

  /** The match a backtracking matcher reports at `i`: each quantifier takes as
      many characters as it can. White space, digits and the period are
      disjoint classes, so giving characters back never helps. */
  function MatchAt(s: string, i: nat): (r: Option<DelimiterMatch>)
    ensures r.Some? ==> i + r.value.Length() <= |s|
  {
    if i < |s| && s[i] == '\n' then
      var lead := SpaceRun(s, i + 1);
      var digits := DigitRun(s, i + 1 + lead);
      var p := i + 1 + lead + digits;
      if digits >= 1 && p < |s| && s[p] == '.' then
        var trail := SpaceRun(s, p + 1);
        if trail >= 1 then Some(DelimiterMatch(lead, digits, trail)) else None
      else None
    else None
  }

  /** What the recogniser finds is a match of the pattern. */
  lemma {:induction false} MatchAtSound(s: string, i: nat)
    requires MatchAt(s, i).Some?
    ensures Fits(s, i, MatchAt(s, i).value)
  {
    var m := MatchAt(s, i).value;
    SpaceRunIsMaximal(s, i + 1);
    DigitRunIsMaximal(s, i + 1 + m.lead);
    SpaceRunIsMaximal(s, i + 1 + m.lead + m.digits + 1);
  }

  /** The recogniser finds a match wherever the pattern fits, and the one it
      finds is the longest: it has the same white space and digits and at
      least as much trailing white space. */
  lemma {:induction false} MatchAtComplete(s: string, i: nat, m: DelimiterMatch)
    requires Fits(s, i, m)
    ensures MatchAt(s, i).Some?
    ensures MatchAt(s, i).value.lead == m.lead && MatchAt(s, i).value.digits == m.digits
    ensures MatchAt(s, i).value.trail >= m.trail
  {
    var d := i + 1 + m.lead;
    var p := d + m.digits;
    PrintableAsciiIsNotSpace(s[d]);
    SpaceRunIsMaximal(s, i + 1);
    assert SpaceRun(s, i + 1) == m.lead;
    DigitRunIsMaximal(s, d);
    assert DigitRun(s, d) == m.digits;
    SpaceRunIsMaximal(s, p + 1);
  }

  /** A match that fits inside a prefix also fits in the whole text. */
  lemma {:induction false} FitsInPrefix(s: string, b: nat, i: nat, m: DelimiterMatch)
    requires b <= |s| && Fits(s[..b], i, m)
    ensures Fits(s, i, m)
  {
    assert forall k :: 0 <= k < b ==> s[..b][k] == s[k];
  }

  /** A match cut out of the text still fits, at position 0. */
  lemma {:induction false} FitsCut(s: string, q: nat, m: DelimiterMatch)
    requires Fits(s, q, m)
    ensures Fits(s[q..q + m.Length()], 0, m)
  {
    var w := s[q..q + m.Length()];
    assert forall k :: 0 <= k < |w| ==> w[k] == s[q + k];
  }

  /** The first position at or after `from` where the delimiter matches. */
  function FirstMatch(s: string, from: nat): (r: Option<(nat, DelimiterMatch)>)
    ensures r.Some? ==> from <= r.value.0 && MatchAt(s, r.value.0) == Some(r.value.1)
    ensures forall p :: from <= p && (r.None? || p < r.value.0) ==> MatchAt(s, p).None?
    decreases |s| - from
  {
    if from >= |s| then None
    else match MatchAt(s, from)
      case Some(m) => Some((from, m))
      case None => FirstMatch(s, from + 1)
  }

  /** `text.split(/\n\s*\d+\.\s+/)`: the pieces between the matches, found
      left to right, without the matched text. */
  function Split(s: string): (r: seq<string>)
    ensures |r| >= 1
    decreases |s|, 1
  {
    SplitWith(s, FirstMatch(s, 0))
  }

  /** `Split` once the first match is known: the piece before it, then the
      split of what follows it. */
  function SplitWith(s: string, f: Option<(nat, DelimiterMatch)>): (r: seq<string>)
    requires f.Some? ==> f.value.0 + f.value.1.Length() <= |s|
    ensures |r| >= 1
    decreases |s|, 0
  {
    match f
    case None => [s]
    case Some((q, m)) => [s[..q]] + Split(s[q + m.Length()..])
  }

  /** A whole string that the recogniser reads as exactly one delimiter. */
  predicate IsDelimiterText(w: string) {
    MatchAt(w, 0).Some? && MatchAt(w, 0).value.Length() == |w|
  }

  /** The text of a match, cut out, is read as exactly one delimiter. */
  lemma {:induction false} CutMatchIsDelimiter(s: string, q: nat, m: DelimiterMatch)
    requires MatchAt(s, q) == Some(m)
    ensures IsDelimiterText(s[q..q + m.Length()])
  {
    MatchAtSound(s, q);
    FitsCut(s, q, m);
    MatchAtComplete(s[q..q + m.Length()], 0, m);
    MatchAtSound(s[q..q + m.Length()], 0);
  }

  /** `pieces[0] + ds[0] + pieces[1] + ... + pieces[n]`. */
  function Interleave(pieces: seq<string>, ds: seq<string>): string
    requires |pieces| == |ds| + 1
  {
    if ds == [] then pieces[0] else pieces[0] + ds[0] + Interleave(pieces[1..], ds[1..])
  }

  lemma {:induction false} Rejoin3(s: string, a: nat, b: nat)
    requires a <= b <= |s|
    ensures s[..a] + s[a..b] + s[b..] == s
  {
  }

  /** The delimiters that `Split` removed, in order: putting them back
      between the pieces rebuilds the text. */
  lemma {:induction false} SplitDelimiters(s: string) returns (ds: seq<string>)
    ensures |ds| == |Split(s)| - 1
    ensures forall k :: 0 <= k < |ds| ==> IsDelimiterText(ds[k])
    ensures Interleave(Split(s), ds) == s
    decreases |s|
  {
    var f := FirstMatch(s, 0);
    if f.None? {
      ds := [];
    } else {
      var (q, m) := f.value;
      SplitStep(s, q, m);
      var ds2 := SplitDelimiters(s[q + m.Length()..]);
      ds := DelimitersStep(s, q, m, Split(s[q + m.Length()..]), ds2);
    }
  }

  /** The delimiters of a text from its first match, at `q`, and the pieces
      and delimiters of the text after that match. */
  lemma {:induction false} DelimitersStep(s: string, q: nat, m: DelimiterMatch, pieces: seq<string>, ds2: seq<string>)
    returns (ds: seq<string>)
    requires MatchAt(s, q) == Some(m) && q + m.Length() <= |s|
    requires |pieces| == |ds2| + 1 && Interleave(pieces, ds2) == s[q + m.Length()..]
    requires forall k :: 0 <= k < |ds2| ==> IsDelimiterText(ds2[k])
    ensures |ds| == |pieces|
    ensures forall k :: 0 <= k < |ds| ==> IsDelimiterText(ds[k])
    ensures Interleave([s[..q]] + pieces, ds) == s
  {
    var n := m.Length();
    var w := s[q..q + n];
    CutMatchIsDelimiter(s, q, m);
    DelimitersCons(w, ds2);
    StepRejoins(s, q, n, pieces, ds2);
    ds := [w] + ds2;
  }

  /** A delimiter in front of delimiters. */
  lemma {:induction false} DelimitersCons(w: string, ds: seq<string>)
    requires IsDelimiterText(w)
    requires forall k :: 0 <= k < |ds| ==> IsDelimiterText(ds[k])
    ensures forall k :: 0 <= k < |[w] + ds| ==> IsDelimiterText(([w] + ds)[k])
  {
    forall k | 0 <= k < |[w] + ds| ensures IsDelimiterText(([w] + ds)[k]) {
      if k > 0 { assert ([w] + ds)[k] == ds[k - 1]; }
    }
  }

  /** The piece before a cut, the cut text and the rejoined rest give back the whole. */
  lemma {:induction false} StepRejoins(s: string, q: nat, n: nat, pieces: seq<string>, ds: seq<string>)
    requires q + n <= |s| && |pieces| == |ds| + 1
    requires Interleave(pieces, ds) == s[q + n..]
    ensures Interleave([s[..q]] + pieces, [s[q..q + n]] + ds) == s
  {
    InterleaveCons(s[..q], s[q..q + n], pieces, ds);
    Rejoin3(s, q, q + n);
  }

  /** The first match lies inside the text. */
  lemma {:induction false} FirstMatchInside(s: string, q: nat, m: DelimiterMatch)
    requires FirstMatch(s, 0) == Some((q, m))
    ensures q + m.Length() <= |s|
  {
    assert MatchAt(s, q) == Some(m);
  }

  /** One step of `Split`: the piece before the first match, then the rest. */
  lemma {:induction false} SplitStep(s: string, q: nat, m: DelimiterMatch)
    requires FirstMatch(s, 0) == Some((q, m))
    ensures q + m.Length() <= |s|
    ensures Split(s) == [s[..q]] + Split(s[q + m.Length()..])
  {
    FirstMatchInside(s, q, m);
  }

  lemma {:induction false} InterleaveCons(piece: string, d: string, pieces: seq<string>, ds: seq<string>)
    requires |pieces| == |ds| + 1
    ensures Interleave([piece] + pieces, [d] + ds) == piece + d + Interleave(pieces, ds)
  {
    assert ([piece] + pieces)[1..] == pieces && ([d] + ds)[1..] == ds;
  }

  /** Splitting loses nothing but the delimiters. */
  lemma {:induction false} SplitRejoins(s: string)
    ensures exists ds :: (|ds| == |Split(s)| - 1 &&
      (forall k :: 0 <= k < |ds| ==> IsDelimiterText(ds[k])) &&
      Interleave(Split(s), ds) == s)
  {
    var ds := SplitDelimiters(s);
  }

  /** The text comes back whole, as the only piece, exactly when it holds no
      delimiter. */
  lemma {:induction false} SplitSingleIffNoMatch(s: string)
    ensures |Split(s)| == 1 <==> FirstMatch(s, 0).None?
    ensures FirstMatch(s, 0).None? ==> Split(s) == [s]
  {
  }

  /** No piece of the split contains a delimiter. */
  lemma {:induction false} SplitPiecesHaveNoDelimiter(s: string, k: nat, j: nat)
    requires k < |Split(s)|
    ensures MatchAt(Split(s)[k], j).None?
    decreases |s|
  {
    match FirstMatch(s, 0)
    case None =>
      if MatchAt(s, j).Some? {
        assert false;
      }
    case Some((q, m)) =>
      var rest := s[q + m.Length()..];
      assert Split(s) == [s[..q]] + Split(rest);
      if k == 0 {
        var piece := s[..q];
        if MatchAt(piece, j).Some? {
          MatchAtSound(piece, j);
          FitsInPrefix(s, q, j, MatchAt(piece, j).value);
          MatchAtComplete(s, j, MatchAt(piece, j).value);
          assert false;
        }
      } else {
        SplitPiecesHaveNoDelimiter(rest, k - 1, j);
      }
  }

  // ---------------------------------------------------------------------------
  // Title
  // ---------------------------------------------------------------------------

  /** Removing the pattern `^#+\s*`: a text that does not open with `#` is kept;
      otherwise the whole leading run of `#` and all the white space after it
      are cut, since `#` is not white space and both quantifiers are greedy. */
  function StripHeadingMarks(s: string): (r: string)
    ensures |r| <= |s| && r == s[|s| - |r|..]
    ensures s == [] || s[0] != '#' ==> r == s
    ensures s != [] && s[0] == '#' ==>
      var h := HashRun(s, 0);
      var w := SpaceRun(s, h);
      h >= 1 && r == s[h + w..] &&
      (forall k :: 0 <= k < h ==> s[k] == '#') && (h == |s| || s[h] != '#') &&
      (forall k :: h <= k < h + w ==> IsSpace(s[k])) && (h + w == |s| || !IsSpace(s[h + w]))
  {
    if s != [] && s[0] == '#' then
      var hashes := HashRun(s, 0);
      HashRunIsMaximal(s, 0);
      SpaceRunIsMaximal(s, hashes);
      s[hashes + SpaceRun(s, hashes)..]
    else s
  }

  /** The heading shown above the sections: the text before the first item,
      heading marks and white space removed, or the default. */
  function Title(text: string): (r: string)
    ensures r != []
    ensures IsTrimmed(r)
    ensures var t := Trim(StripHeadingMarks(Split(text)[0]));
      (t == "" ==> r == DEFAULT_TITLE) && (t != "" ==> r == t)
  {
    TitleOf(Split(text)[0])
  }

  /** The title made from the part before the first item. */
  function TitleOf(head: string): (r: string)
    ensures r != []
    ensures IsTrimmed(r)
    ensures Trim(StripHeadingMarks(head)) == "" ==> r == DEFAULT_TITLE
    ensures Trim(StripHeadingMarks(head)) != "" ==> r == Trim(StripHeadingMarks(head))
  {
    var t := Trim(StripHeadingMarks(head));
    if t == "" then DEFAULT_TITLE else t
  }

  /** A markdown heading line `# h` is titled by its text alone. */
  lemma {:induction false} TitleOfMarkedHeading(h: string)
    requires h != [] && IsTrimmed(h) && h[0] != '#'
    ensures TitleOf("# " + h) == h
  {
    var s := "# " + h;
    assert s[0] == '#' && s[1] == ' ' && s[2] == h[0];
    assert IsSpace(' ');
    assert !IsSpace(h[0]);
    assert s[2..] == h;
  }

  /** A reply that starts with a numbered item has the default title. */
  lemma {:induction false} TitleOfNumberedReply(text: string)
    requires MatchAt(text, 0).Some?
    ensures Title(text) == DEFAULT_TITLE
  {
    assert FirstMatch(text, 0) == Some((0, MatchAt(text, 0).value));
    assert Split(text)[0] == [];
  }

  /** A reply with no numbered item, no heading mark and no surrounding white
      space is its own title. */
  lemma {:induction false} TitleOfPlainReply(text: string)
    requires forall j :: MatchAt(text, j).None?
    requires text != [] && text[0] != '#' && IsTrimmed(text)
    ensures Title(text) == text
  {
    assert FirstMatch(text, 0).None?;
    assert Split(text) == [text];
  }

  // ---------------------------------------------------------------------------
  // Sections
  // ---------------------------------------------------------------------------

  datatype Section = Section(heading: string, content: seq<string>)

  /** The filter the renderer applies to trimmed lines. */
  predicate NonEmpty(p: string) {
    p != []
  }

  /** The lines of `body`, each trimmed, the empty ones dropped. */
  function Paragraphs(body: string): (ps: seq<string>)
    ensures forall k :: 0 <= k < |ps| ==> ps[k] != [] && IsTrimmed(ps[k]) && '\n' !in ps[k]
  {
    var trimmed := Map(SplitOn(body, '\n'), Trim);
    var ps := Filter(trimmed, NonEmpty);
    assert forall k :: 0 <= k < |ps| ==> ps[k] in trimmed by {
      forall k | 0 <= k < |ps| ensures ps[k] in trimmed {
        FilterMembership(trimmed, NonEmpty, ps[k]);
      }
    }
    ps
  }

  /** A paragraph is exactly a non-empty trimmed line of the body. */
  lemma {:induction false} ParagraphsAreTrimmedLines(body: string, p: string)
    ensures p in Paragraphs(body) <==> p != [] && exists line :: line in SplitOn(body, '\n') && Trim(line) == p
  {
    var lines := SplitOn(body, '\n');
    var trimmed := Map(lines, Trim);
    FilterMembership(trimmed, NonEmpty, p);
    if p in trimmed {
      var k :| 0 <= k < |trimmed| && trimmed[k] == p;
      assert lines[k] in lines;
    }
    if exists line :: line in lines && Trim(line) == p {
      var line :| line in lines && Trim(line) == p;
      var k :| 0 <= k < |lines| && lines[k] == line;
      assert trimmed[k] == p;
    }
  }

  /** One line gives its trimmed text as one paragraph, or nothing when it
      is blank. */
  lemma {:induction false} ParagraphsOfLine(s: string)
    requires '\n' !in s
    ensures Paragraphs(s) == if Trim(s) == "" then [] else [Trim(s)]
  {
    SplitOnWithoutSeparator(s, '\n');
    assert Map([s], Trim) == [Trim(s)];
    assert Filter([Trim(s)], NonEmpty) == (if NonEmpty(Trim(s)) then [Trim(s)] else []) + Filter([], NonEmpty);
  }

  /** The paragraphs of two blocks of lines joined by a line break are those
      of the first followed by those of the second, in order and with their
      repetitions. */
  lemma {:induction false} ParagraphsConcat(a: string, b: string)
    ensures Paragraphs(a + "\n" + b) == Paragraphs(a) + Paragraphs(b)
  {
    assert a + "\n" + b == a + ['\n'] + b;
    SplitOnConcat(a, b, '\n');
    var la, lb := SplitOn(a, '\n'), SplitOn(b, '\n');
    MapAppend(la, lb, Trim);
    FilterAppend(Map(la, Trim), Map(lb, Trim), NonEmpty);
  }

  /** The source's test for a bold heading: a `**:` occurs, and before any
      other colon. */
  predicate BoldFirst(t: string) {
    var colon := IndexOf(t, ":");
    var boldEnd := IndexOf(t, "**:");
    boldEnd != -1 && (colon == -1 || boldEnd < colon)
  }

  lemma {:induction false} BoldFirstColon(t: string)
    requires BoldFirst(t)
    ensures var c := IndexOf(t, ":"); c >= 2 && t[c - 2..c] == "**" && IndexOf(t, "**:") == c - 2
  {
    var b := IndexOf(t, "**:");
    var w := t[b..b + 3];
    assert w == "**:";
    assert t[b + 1] == w[1] == '*' && t[b + 2] == w[2] == ':';
    assert t[b + 2..b + 3] == ":";
    assert OccursAt(t, ":", b + 2);
    var c := IndexOf(t, ":");
    assert c != -1 && b < c <= b + 2;
    assert !OccursAt(t, ":", b + 1) by { assert t[b + 1..b + 2][0] == '*'; }
    assert c == b + 2;
    assert t[c - 2..c] == w[..2];
  }

  lemma {:induction false} ColonAfterMarksIsBold(t: string)
    requires var c := IndexOf(t, ":"); c >= 2 && t[c - 2..c] == "**"
    ensures BoldFirst(t)
  {
    var c := IndexOf(t, ":");
    var b := IndexOf(t, "**:");
    assert t[c..c + 1] == ":";
    assert t[c - 2..c + 1] == t[c - 2..c] + t[c..c + 1];
    assert OccursAt(t, "**:", c - 2);
    assert b != -1 && b <= c - 2;
  }

  /** The bold test holds exactly when the first colon comes right after `**`. */
  lemma {:induction false} BoldFirstIff(t: string)
    ensures BoldFirst(t) <==>
      (var c := IndexOf(t, ":"); c >= 2 && t[c - 2..c] == "**")
    ensures BoldFirst(t) ==> IndexOf(t, "**:") == IndexOf(t, ":") - 2
  {
    var c := IndexOf(t, ":");
    if BoldFirst(t) {
      BoldFirstColon(t);
    }
    if c >= 2 && t[c - 2..c] == "**" {
      ColonAfterMarksIsBold(t);
    }
  }

  /** The heading of a trimmed chunk and the index just past its delimiter
      (-1 when there is none). In both branches the delimiter is the first
      colon, so a chunk has a heading part exactly when it has a colon. */
  function HeadingSplit(t: string): (hs: (string, int))
    ensures IsTrimmed(hs.0)
    ensures hs.1 == -1 <==> IndexOf(t, ":") == -1
    ensures hs.1 != -1 ==> hs.1 == IndexOf(t, ":") + 1
    ensures hs.1 == -1 ==> hs.0 == ""
  {
    var colon := IndexOf(t, ":");
    var boldEnd := IndexOf(t, "**:");
    if BoldFirst(t) then
      BoldFirstColon(t);
      (Trim(Substring(t, IndexOf(t, "**") + 2, boldEnd)), boldEnd + 3)
    else if colon != -1 then
      (Trim(RemoveAll(Substring(t, 0, colon), '*')), colon + 1)
    else ("", -1)
  }

  /** One numbered item turned into a section. */
  function ParseChunk(chunk: string): (sec: Section)
    ensures IsTrimmed(sec.heading)
  {
    var t := Trim(chunk);
    var (heading, splitIndex) := HeadingSplit(t);
    if splitIndex != -1 then Section(heading, Paragraphs(Trim(SubstringFrom(t, splitIndex))))
    else Section("", Paragraphs(t))
  }

  /** A chunk with no colon has no heading; all of it is body. */
  lemma {:induction false} ParseChunkWithoutColon(chunk: string)
    requires IndexOf(Trim(chunk), ":") == -1
    ensures ParseChunk(chunk) == Section("", Paragraphs(Trim(chunk)))
  {
    BoldFirstIff(Trim(chunk));
  }

  /** With a colon, in either branch, the body starts just after the first colon. */
  lemma {:induction false} ParseChunkBodyAfterColon(chunk: string)
    requires IndexOf(Trim(chunk), ":") != -1
    ensures var t := Trim(chunk);
      ParseChunk(chunk).content == Paragraphs(Trim(t[IndexOf(t, ":") + 1..]))
  {
    var t := Trim(chunk);
    var c := IndexOf(t, ":");
    assert OccursAt(t, ":", c);
    assert SubstringFrom(t, c + 1) == t[c + 1..];
    var hs := HeadingSplit(t);
    assert hs.1 == c + 1 by { BoldFirstIff(t); }
    assert ParseChunk(chunk) == Section(hs.0, Paragraphs(Trim(SubstringFrom(t, hs.1))));
  }

  /** In the plain-colon branch the heading is made of characters from before
      the colon, none of them an asterisk. */
  lemma {:induction false} ParseChunkPlainHeading(chunk: string)
    requires var t := Trim(chunk); IndexOf(t, ":") != -1 && !BoldFirst(t)
    ensures var t := Trim(chunk); var h := ParseChunk(chunk).heading;
      '*' !in h && forall x :: x in h ==> x in t[..IndexOf(t, ":")]
  {
    var t := Trim(chunk);
    var c := IndexOf(t, ":");
    assert ParseChunk(chunk).heading == Trim(RemoveAll(t[..c], '*'));
  }

  /** When the first `**` is the one in `**:`, `substring` receives its bounds
      in reverse order, swaps them, and the heading comes out as `**`. */
  lemma {:induction false} BoldHeadingSwapsBounds(chunk: string)
    requires var t := Trim(chunk); var c := IndexOf(t, ":");
      c >= 2 && t[c - 2..c] == "**" && IndexOf(t, "**") == c - 2
    ensures ParseChunk(chunk).heading == "**"
  {
    var t := Trim(chunk);
    var c := IndexOf(t, ":");
    BoldFirstIff(t);
    assert Substring(t, c, c - 2) == "**";
  }

  /** Sections that have a heading or a paragraph. */
  predicate HasContent(s: Section) {
    |s.heading| > 0 || |s.content| > 0
  }

  /** Every chunk after the title, parsed, in order. */
  function ParsedChunks(chunks: seq<string>): (r: seq<Section>)
    ensures |r| == |chunks|
    ensures forall k :: 0 <= k < |r| ==> r[k] == ParseChunk(chunks[k])
  {
    Map(chunks, ParseChunk)
  }

  /** The displayed sections: one per numbered item at most, in item order,
      none of them empty. */
  function Sections(text: string): (r: seq<Section>)
    ensures |r| <= |Split(text)| - 1
    ensures IsSubsequence(r, ParsedChunks(Split(text)[1..]))
    ensures forall k :: 0 <= k < |r| ==> HasContent(r[k])
  {
    var parsed := ParsedChunks(Split(text)[1..]);
    FilterIsSubsequence(parsed, HasContent);
    Filter(parsed, HasContent)
  }

  /** A section is on display exactly when it is a parsed item with a
      heading or a paragraph: no item with content is dropped. */
  lemma {:induction false} SectionsAreItemsWithContent(text: string, sec: Section)
    ensures sec in Sections(text) <==> sec in ParsedChunks(Split(text)[1..]) && HasContent(sec)
  {
    FilterMembership(ParsedChunks(Split(text)[1..]), HasContent, sec);
  }

  /** Repeated items are all displayed: a section with content appears as
      often as it does among the parsed items, one without never does. */
  lemma {:induction false} SectionsKeepRepeats(text: string, sec: Section)
    ensures multiset(Sections(text))[sec] ==
      if HasContent(sec) then multiset(ParsedChunks(Split(text)[1..]))[sec] else 0
  {
    FilterMultiplicity(ParsedChunks(Split(text)[1..]), HasContent, sec);
  }

  /** When every parsed item has content, the sections are exactly the
      parsed items. */
  lemma {:induction false} SectionsOfParsedItems(text: string, secs: seq<Section>)
    requires ParsedChunks(Split(text)[1..]) == secs
    requires forall k :: 0 <= k < |secs| ==> HasContent(secs[k])
    ensures Sections(text) == secs
  {
    FilterAllKept(secs, HasContent);
  }

  /** Every paragraph on display is non-empty, trimmed and a single line. */
  lemma {:induction false} SectionParagraphsAreLines(text: string, k: nat, j: nat)
    requires k < |Sections(text)| && j < |Sections(text)[k].content|
    ensures var p := Sections(text)[k].content[j];
      p != [] && IsTrimmed(p) && '\n' !in p
  {
    var sec := Sections(text)[k];
    SectionsAreItemsWithContent(text, sec);
    ParsedParagraphsAreLines(Split(text)[1..], sec, j);
  }

  /** The paragraphs of any parsed item are non-empty trimmed lines. */
  lemma {:induction false} ParsedParagraphsAreLines(chunks: seq<string>, sec: Section, j: nat)
    requires sec in ParsedChunks(chunks) && j < |sec.content|
    ensures var p := sec.content[j]; p != [] && IsTrimmed(p) && '\n' !in p
  {
    var i :| 0 <= i < |chunks| && ParsedChunks(chunks)[i] == sec;
    ChunkParagraphsAreLines(chunks[i], j);
  }

  /** The paragraphs of one parsed item are non-empty trimmed lines. */
  lemma {:induction false} ChunkParagraphsAreLines(chunk: string, j: nat)
    requires j < |ParseChunk(chunk).content|
    ensures var p := ParseChunk(chunk).content[j];
      p != [] && IsTrimmed(p) && '\n' !in p
  {
    var t := Trim(chunk);
    var (heading, splitIndex) := HeadingSplit(t);
    if splitIndex != -1 {
      assert ParseChunk(chunk).content == Paragraphs(Trim(SubstringFrom(t, splitIndex)));
    } else {
      assert ParseChunk(chunk).content == Paragraphs(t);
    }
  }

  /** A reply without numbered items has no sections. */
  lemma {:induction false} NoItemsNoSections(text: string)
    requires forall j :: MatchAt(text, j).None?
    ensures Sections(text) == []
  {
    assert FirstMatch(text, 0).None?;
    assert Split(text) == [text];
  }

  /** A single trimmed, non-empty line is one paragraph. */
  lemma {:induction false} ParagraphsOfOneLine(s: string)
    requires s != [] && IsTrimmed(s) && '\n' !in s
    ensures Paragraphs(s) == [s]
  {
    ParagraphsOfLine(s);
  }

  // ---------------------------------------------------------------------------
  // Worked examples
  // ---------------------------------------------------------------------------

  /** `FirstMatch` skips a stretch without newlines. */
  lemma {:induction false} FirstMatchAt(s: string, from: nat, q: nat)
    requires from <= q && MatchAt(s, q).Some?
    requires forall j :: from <= j < q ==> s[j] != '\n'
    ensures FirstMatch(s, from) == Some((q, MatchAt(s, q).value))
    decreases q - from
  {
    if from < q {
      FirstMatchAt(s, from + 1, q);
    }
  }

  /** A text without newlines after `from` has no match there. */
  lemma {:induction false} NoMatchFrom(s: string, from: nat)
    requires forall j :: from <= j < |s| ==> s[j] != '\n'
    ensures FirstMatch(s, from).None?
    decreases |s| - from
  {
    if from < |s| {
      NoMatchFrom(s, from + 1);
    }
  }

  /** A newline, one digit, a period and one space, then text: the
      delimiter of a one-digit item. */
  lemma {:induction false} OneDigitItem(s: string, i: nat)
    requires i + 4 < |s| && s[i] == '\n' && IsDigit(s[i + 1]) && s[i + 2] == '.'
    requires s[i + 3] == ' ' && !IsSpace(s[i + 4])
    ensures MatchAt(s, i) == Some(DelimiterMatch(0, 1, 1))
  {
    assert !IsSpace(s[i + 1]);
    assert SpaceRun(s, i + 1) == 0;
    assert DigitRun(s, i + 2) == 0;
    assert DigitRun(s, i + 1) == 1;
    assert SpaceRun(s, i + 4) == 0;
    assert SpaceRun(s, i + 3) == 1;
  }

  lemma {:induction false} SplitExampleHead(s: string, head: string, rest: string)
    requires s == head + "\n1. " + rest
    requires head == "0-title" && rest != [] && rest[0] == '*'
    ensures Split(s) == [head] + Split(rest)
  {
    assert s[7] == '\n' && s[8] == '1' && s[9] == '.' && s[10] == ' ' && s[11] == '*';
    OneDigitItem(s, 7);
    assert forall j :: 0 <= j < 7 ==> s[j] == head[j];
    FirstMatchAt(s, 0, 7);
    assert s[11..] == rest;
    assert s[..7] == head;
    SplitStep(s, 7, DelimiterMatch(0, 1, 1));
  }

  lemma {:induction false} SplitExampleTail(r: string)
    requires r == "**A**: x\n2. B: y"
    ensures Split(r) == ["**A**: x", "B: y"]
  {
    assert r[8] == '\n' && r[9] == '2' && r[10] == '.' && r[11] == ' ' && r[12] == 'B';
    OneDigitItem(r, 8);
    FirstMatchAt(r, 0, 8);
    var last := r[12..];
    assert last == "B: y";
    NoMatchFrom(last, 0);
    assert Split(last) == [last];
    assert r[..8] == "**A**: x";
    SplitStep(r, 8, DelimiterMatch(0, 1, 1));
  }

  /** The title and the two items of the example reply. */
  lemma {:induction false} SplitExample()
    ensures Split("0-title\n1. **A**: x\n2. B: y") == ["0-title", "**A**: x", "B: y"]
  {
    SplitExampleHead("0-title\n1. **A**: x\n2. B: y", "0-title", "**A**: x\n2. B: y");
    SplitExampleTail("**A**: x\n2. B: y");
  }

  lemma {:induction false} BoldItemIndices(c: string)
    requires c == "**A**: x"
    ensures IndexOf(c, ":") == 5 && IndexOf(c, "**:") == 3 && IndexOf(c, "**") == 0
  {
    assert c[5..6] == ":";
    forall j | 0 <= j < 5 ensures !OccursAt(c, ":", j) {
      assert c[j..j + 1][0] == c[j] != ':';
    }
    IndexOfIs(c, ":", 5);
    assert c[3..6] == "**:";
    assert !OccursAt(c, "**:", 0) by { assert c[0..3][2] == 'A'; }
    assert !OccursAt(c, "**:", 1) by { assert c[1..4][2] == '*'; }
    assert !OccursAt(c, "**:", 2) by { assert c[2..5][0] == 'A'; }
    IndexOfIs(c, "**:", 3);
    assert c[0..2] == "**";
    IndexOfIs(c, "**", 0);
  }

  lemma {:induction false} BoldItemHeading(c: string)
    requires c == "**A**: x"
    ensures HeadingSplit(c) == ("A", 6)
  {
    BoldItemIndices(c);
    assert Substring(c, 2, 3) == "A";
    assert Trim("A") == "A" by { assert IsTrimmed("A"); }
  }

  /** `**A**:` is read by the bold branch. */
  lemma {:induction false} BoldItem(c: string)
    requires c == "**A**: x"
    ensures ParseChunk(c) == Section("A", ["x"])
  {
    assert IsTrimmed(c);
    assert SubstringFrom(c, 6) == " x";
    assert Trim(" x") == "x" by { assert SpaceRun(" x", 0) == 1; }
    ParagraphsOfOneLine("x");
    BoldItemHeading(c);
    ParseChunkAt(c, "A", 6);
  }

  lemma {:induction false} PlainItemIndices(c: string)
    requires c == "B: y"
    ensures IndexOf(c, ":") == 1 && IndexOf(c, "**:") == -1
  {
    assert c[1..2] == ":" && c[0] != ':';
    IndexOfIs(c, ":", 1);
    assert forall i :: 0 <= i <= 1 ==> c[i] != '*';
  }

  lemma {:induction false} PlainItemHeading(c: string)
    requires c == "B: y"
    ensures HeadingSplit(c) == ("B", 2)
  {
    PlainItemIndices(c);
    assert c[..1] == "B";
    assert RemoveAll("B", '*') == "B";
    assert Trim("B") == "B" by { assert IsTrimmed("B"); }
  }

  /** `B:` is read by the plain branch. */
  lemma {:induction false} PlainItem(c: string)
    requires c == "B: y"
    ensures ParseChunk(c) == Section("B", ["y"])
  {
    assert IsTrimmed(c);
    assert SubstringFrom(c, 2) == " y";
    assert Trim(" y") == "y" by { assert SpaceRun(" y", 0) == 1; }
    ParagraphsOfOneLine("y");
    PlainItemHeading(c);
    ParseChunkAt(c, "B", 2);
  }

  /** A reply with a line before two numbered items, one with a bold and
      one with a plain heading: the items parse to two sections that both
      have content, so `SectionsOfParsedItems` shows both. */
  lemma {:induction false} WorkedExample()
    ensures ParsedChunks(Split("0-title\n1. **A**: x\n2. B: y")[1..]) == [Section("A", ["x"]), Section("B", ["y"])]
  {
    SplitExample();
    BoldItem("**A**: x");
    PlainItem("B: y");
    MapPair("**A**: x", "B: y", ParseChunk, Section("A", ["x"]), Section("B", ["y"]));
  }

  lemma {:induction false} StripBoldMarks(h: string)
    requires '*' !in h
    ensures RemoveAll("**" + h, '*') == h
  {
    RemoveAllAbsent(h, '*');
    assert ("**" + h)[1..] == "*" + h;
    assert ("*" + h)[1..] == h;
  }

  lemma {:induction false} PromptStyleIndices(h: string, rest: string)
    requires h != [] && ':' !in h && '*' !in h && ':' !in rest
    ensures var c := "**" + h + ":**" + rest;
      IndexOf(c, ":") == 2 + |h| && IndexOf(c, "**:") == -1
  {
    var c := "**" + h + ":**" + rest;
    var k := 2 + |h|;
    assert c[k] == ':' && c[k..k + 1] == ":";
    forall j | 0 <= j < k ensures !OccursAt(c, ":", j) {
      assert c[j..j + 1][0] == c[j];
      if j >= 2 { assert c[j] == h[j - 2]; }
    }
    IndexOfIs(c, ":", k);
    forall j | 0 <= j ensures !OccursAt(c, "**:", j) {
      if j + 3 <= |c| {
        assert c[j..j + 3][2] == c[j + 2];
        assert c[j..j + 3][1] == c[j + 1];
        if j + 2 < k {
          assert c[j + 2] == h[j];
        } else if j + 2 > k + 2 {
          assert c[j + 2] == rest[j - k - 1];
        } else if j + 2 == k {
          assert c[j + 1] == h[|h| - 1];
        }
      }
    }
  }

  /** A trimmed chunk whose heading split is known. */
  lemma {:induction false} ParseChunkAt(c: string, h: string, k: nat)
    requires IsTrimmed(c) && HeadingSplit(c) == (h, k)
    ensures ParseChunk(c) == Section(h, Paragraphs(Trim(SubstringFrom(c, k))))
  {
  }

  lemma {:induction false} PromptStyleHeading(h: string, rest: string)
    requires h != [] && IsTrimmed(h) && ':' !in h && '*' !in h && ':' !in rest
    ensures HeadingSplit("**" + h + ":**" + rest) == (h, 3 + |h|)
  {
    var c := "**" + h + ":**" + rest;
    PromptStyleIndices(h, rest);
    PlainHeadingSplit(c, 2 + |h|);
    PromptStylePrefix(h, rest);
    StripBoldMarks(h);
  }

  /** The plain branch of the heading split, once the first colon is known. */
  lemma {:induction false} PlainHeadingSplit(t: string, colon: nat)
    requires IndexOf(t, ":") == colon && !BoldFirst(t)
    ensures colon <= |t| && HeadingSplit(t) == (Trim(RemoveAll(t[..colon], '*')), colon + 1)
  {
  }

  /** In `**h**:rest`, with no `*` or colon in `h`, the first colon is the
      one after the closing marks and the first `**:` ends those marks. */
  lemma {:induction false} BoldIndices(h: string, rest: string)
    requires '*' !in h && ':' !in h
    ensures var c := "**" + h + "**:" + rest;
      IndexOf(c, ":") == 4 + |h| && IndexOf(c, "**:") == 2 + |h| && IndexOf(c, "**") == 0
  {
    var c := "**" + h + "**:" + rest;
    var k := 4 + |h|;
    assert c[k..k + 1] == ":";
    forall j | 0 <= j < k ensures !OccursAt(c, ":", j) {
      assert c[j..j + 1][0] == c[j];
      if 2 <= j < 2 + |h| { assert c[j] == h[j - 2]; }
    }
    IndexOfIs(c, ":", k);
    assert c[k - 2..k + 1] == "**:";
    forall j | 0 <= j < k - 2 ensures !OccursAt(c, "**:", j) {
      assert c[j..j + 3][2] == c[j + 2];
      if j + 2 < 2 + |h| { assert c[j + 2] == h[j]; }
    }
    IndexOfIs(c, "**:", k - 2);
    assert c[0..2] == "**";
    IndexOfIs(c, "**", 0);
  }

  /** The bold form `**h**:rest`: the heading is `h` without its marks,
      trimmed, and the body starts after the colon. */
  lemma {:induction false} BoldHeading(h: string, rest: string)
    requires '*' !in h && ':' !in h
    ensures HeadingSplit("**" + h + "**:" + rest) == (Trim(h), 5 + |h|)
  {
    var c := "**" + h + "**:" + rest;
    BoldIndices(h, rest);
    assert BoldFirst(c);
    assert Substring(c, 2, 2 + |h|) == h;
  }

  lemma {:induction false} PromptStylePrefix(h: string, rest: string)
    ensures ("**" + h + ":**" + rest)[..2 + |h|] == "**" + h
  {
  }

  lemma {:induction false} PromptStyleBody(rest: string)
    requires '\n' !in rest && (rest == [] || !IsSpace(rest[|rest| - 1]))
    ensures Paragraphs(Trim("**" + rest)) == ["**" + rest]
  {
    var body := "**" + rest;
    assert body[0] == '*' && body[|body| - 1] == (if rest == [] then '*' else rest[|rest| - 1]);
    assert IsTrimmed(body);
    assert '\n' !in body;
    ParagraphsOfOneLine(body);
  }

  lemma {:induction false} PromptStyleCut(h: string, rest: string)
    requires rest == [] || !IsSpace(rest[|rest| - 1])
    ensures IsTrimmed("**" + h + ":**" + rest)
    ensures SubstringFrom("**" + h + ":**" + rest, 3 + |h|) == "**" + rest
  {
    var c := "**" + h + ":**" + rest;
    assert c[0] == '*' && c[|c| - 1] == (if rest == [] then '*' else rest[|rest| - 1]);
    assert c == ("**" + h + ":") + ("**" + rest);
    SubstringFromConcat("**" + h + ":", "**" + rest);
  }

  /** An item in the `**Heading:**` form the recommendation prompt asks
      for contains no `**:`, so the plain branch reads it: the heading comes
      out clean, but the closing `**` stays at the head of the first
      paragraph. */
  lemma {:induction false} PromptStyleItemKeepsClosingMarks(h: string, rest: string)
    requires h != [] && IsTrimmed(h) && ':' !in h && '*' !in h
    requires ':' !in rest && '\n' !in rest && (rest == [] || !IsSpace(rest[|rest| - 1]))
    ensures ParseChunk("**" + h + ":**" + rest) == Section(h, ["**" + rest])
  {
    var c := "**" + h + ":**" + rest;
    PromptStyleCut(h, rest);
    PromptStyleBody(rest);
    PromptStyleHeading(h, rest);
    ParseChunkAt(c, h, 3 + |h|);
  }

  // ---------------------------------------------------------------------------
  // Sources and the rendered view
  // ---------------------------------------------------------------------------

  /** A chunk with a web source whose uri is a non-empty string. */
  predicate HasLink(c: GroundingChunk) {
    c.web.Some? && c.web.value.uri.Some? && c.web.value.uri.value != ""
  }

  datatype SourceLink = SourceLink(uri: string, caption: string)

  /** The link shown for a chunk: labelled by its title, or by its uri when the
      title is missing or empty. */
  function LinkOf(c: GroundingChunk): (l: SourceLink)
    requires HasLink(c)
    ensures l.uri == c.web.value.uri.value && l.caption != ""
    ensures l.caption == (if c.web.value.title.Some? && c.web.value.title.value != ""
                        then c.web.value.title.value else l.uri)
  {
    var w := c.web.value;
    SourceLink(w.uri.value, if w.title.Some? && w.title.value != "" then w.title.value else w.uri.value)
  }

  /** The listed sources: the chunks that have a link, in order. */
  function Sources(chunks: seq<GroundingChunk>): (r: seq<SourceLink>)
    ensures |r| <= |chunks|
  {
    var kept := Filter(chunks, HasLink);
    seq(|kept|, k requires 0 <= k < |kept| => LinkOf(kept[k]))
  }

  /** Sources are listed chunk by chunk: the list for two runs of chunks is the
      list for the first followed by the list for the second. */
  lemma {:induction false} SourcesAppend(a: seq<GroundingChunk>, b: seq<GroundingChunk>)
    ensures Sources(a + b) == Sources(a) + Sources(b)
  {
    FilterAppend(a, b, HasLink);
  }

  /** Every present chunk that has a link is listed. */
  lemma {:induction false} SourcesListEveryLink(chunks: seq<GroundingChunk>, c: GroundingChunk)
    requires HasLink(c)
    ensures c in chunks ==> LinkOf(c) in Sources(chunks)
  {
    var kept := Filter(chunks, HasLink);
    FilterMembership(chunks, HasLink, c);
    if c in chunks {
      var k :| 0 <= k < |kept| && kept[k] == c;
      assert Sources(chunks)[k] == LinkOf(c);
    }
  }

  /** Every listed link is the link of a present chunk that has one, so its
      uri is never empty. */
  lemma {:induction false} SourcesComeFromLinkedChunks(chunks: seq<GroundingChunk>, k: nat)
    requires k < |Sources(chunks)|
    ensures exists c :: c in chunks && HasLink(c) && Sources(chunks)[k] == LinkOf(c)
    ensures Sources(chunks)[k].uri != ""
  {
    var kept := Filter(chunks, HasLink);
    FilterMembership(chunks, HasLink, kept[k]);
  }

  datatype Body = SectionList(sections: seq<Section>) | RawText(text: string) | NoBody

  /** What the component renders: nothing, or a card with a title, a body and,
      when chunks were given, a list of sources. */
  datatype View = Nothing | Card(title: string, body: Body, sources: Option<seq<SourceLink>>)

  /** The card is left out exactly when the text is empty and there are no
      grounding chunks. A card has the title; its body is the sections when
      there are any, else the raw text when there is some; it lists the
      sources exactly when chunks were given. */
  function Render(text: string, chunks: Option<seq<GroundingChunk>>): (v: View)
    ensures v == Nothing <==> text == "" && (chunks.None? || chunks.value == [])
    ensures v.Card? ==> v.title == Title(text)
    ensures v.Card? ==> (v.body.SectionList? <==> Sections(text) != [])
    ensures v.Card? && v.body.SectionList? ==> v.body.sections == Sections(text)
    ensures v.Card? ==> (v.body == RawText(text) <==> Sections(text) == [] && text != "")
    ensures v.Card? && v.body.NoBody? ==> text == "" && chunks.Some? && chunks.value != []
    ensures v.Card? ==> (v.sources.Some? <==> chunks.Some? && chunks.value != [])
    ensures v.Card? && v.sources.Some? ==> v.sources.value == Sources(chunks.value)
  {
    if text == "" && (chunks.None? || chunks.value == []) then Nothing
    else
      var secs := Sections(text);
      Card(Title(text),
           if |secs| > 0 then SectionList(secs) else if text != "" then RawText(text) else NoBody,
           if chunks.Some? && |chunks.value| > 0 then Some(Sources(chunks.value)) else None)
  }

  /** An item delimiter with nothing after it yields no section, so a reply
      that does have a numbered item can still be shown verbatim. */
  lemma {:induction false} EmptyItemShownVerbatim(text: string)
    requires text == "Intro\n1. "
    ensures MatchAt(text, 5).Some? && Sections(text) == []
    ensures Render(text, None).Card? && Render(text, None).body == RawText(text)
  {
    EmptyItemSplit(text);
    assert Split(text)[1..] == [""];
    EmptyItemDropped(text);
  }

  /** A newline, one digit, a period and one space ending the text. */
  lemma {:induction false} OneDigitItemAtEnd(s: string, i: nat)
    requires i + 4 == |s| && s[i] == '\n' && IsDigit(s[i + 1]) && s[i + 2] == '.' && s[i + 3] == ' '
    ensures MatchAt(s, i) == Some(DelimiterMatch(0, 1, 1))
  {
    assert !IsSpace(s[i + 1]);
    assert SpaceRun(s, i + 1) == 0;
    assert DigitRun(s, i + 2) == 0;
    assert DigitRun(s, i + 1) == 1;
    assert SpaceRun(s, i + 4) == 0;
    assert SpaceRun(s, i + 3) == 1;
  }

  lemma {:induction false} EmptyItemSplit(text: string)
    requires text == "Intro\n1. "
    ensures MatchAt(text, 5).Some? && Split(text) == ["Intro", ""]
  {
    assert text[5] == '\n' && text[6] == '1' && text[7] == '.' && text[8] == ' ';
    OneDigitItemAtEnd(text, 5);
    FirstMatchAt(text, 0, 5);
    SplitStep(text, 5, DelimiterMatch(0, 1, 1));
    assert text[..5] == "Intro" && text[9..] == "";
    assert Split("") == [""];
  }

  /** An empty item parses to a section with neither heading nor paragraph. */
  lemma {:induction false} EmptyChunk()
    ensures ParseChunk("") == Section("", [])
  {
    assert Trim("") == "";
    assert IndexOf("", ":") == -1;
    ParagraphsOfLine("");
  }

  lemma {:induction false} EmptyItemDropped(text: string)
    requires Split(text)[1..] == [""]
    ensures Sections(text) == []
  {
    EmptyChunk();
    assert ParsedChunks([""]) == [Section("", [])];
  }

  /** A non-empty reply without numbered items is shown verbatim. */
  lemma {:induction false} UnnumberedReplyShownVerbatim(text: string, chunks: Option<seq<GroundingChunk>>)
    requires text != [] && forall j :: MatchAt(text, j).None?
    ensures Render(text, chunks).Card? && Render(text, chunks).body == RawText(text)
  {
    NoItemsNoSections(text);
  }
}
