/**
 The corpus reader: paragraphs and highlight_for of repositories/corpus_reader.py.
 A section is cut into paragraphs, and a chunk's span is projected onto them.
 */
module CorpusReader {
  import opened Wrappers
  import opened Chunking
  import opened Sequences

  /** Where str.splitlines ends a line. */
  predicate IsLineBoundary(c: char) {
    || '\n' <= c <= '\r'
    || '\U{1C}' <= c <= '\U{1E}'
    || c == '\U{85}'
    || c == '\U{2028}'
    || c == '\U{2029}'
  }

  /** The characters rstrip("\r\n") removes. */
  predicate IsBreak(c: char) {
    c == '\r' || c == '\n'
  }

  /** One past the line that starts at i, its terminator included. */
  function LineEnd(text: string, i: nat): (e: nat)
    requires i < |text|
    ensures i < e <= |text|
    decreases |text| - i
  {
    if text[i] == '\r' && i + 1 < |text| && text[i + 1] == '\n' then i + 2
    else if IsLineBoundary(text[i]) || i + 1 == |text| then i + 1
    else LineEnd(text, i + 1)
  }

  /** The code points at which splitlines splits, one by one. */
  lemma {:induction false} BoundariesAre(c: char)
    ensures IsLineBoundary(c)
       <==> c as int in {0x0A, 0x0B, 0x0C, 0x0D, 0x1C, 0x1D, 0x1E, 0x85, 0x2028, 0x2029}
  {
  }

  /** No line ends strictly inside [i, e), where "\r\n" counts as one end. */
  predicate WithinLine(text: string, i: int, e: int) {
    forall j :: 0 <= i <= j < e - 1 && j < |text| && IsLineBoundary(text[j]) ==>
      j == e - 2 && text[j] == '\r' && e <= |text| && text[e - 1] == '\n'
  }

  /** A line goes on up to the first boundary after its start, or to the end of the text. */
  lemma {:induction false} LineEndIs(text: string, i: nat)
    requires i < |text|
    ensures var e := LineEnd(text, i);
      && WithinLine(text, i, e)
      && (e < |text| ==> IsLineBoundary(text[e - 1]) && !(text[e - 1] == '\r' && text[e] == '\n'))
    decreases |text| - i
  {
    if !(text[i] == '\r' && i + 1 < |text| && text[i + 1] == '\n') && !IsLineBoundary(text[i]) && i + 1 < |text| {
      LineEndIs(text, i + 1);
    }
  }

  /** text.splitlines(keepends=True), from position i on. */
  function SplitLines(text: string, i: nat := 0): seq<string>
    requires i <= |text|
    decreases |text| - i
  {
    if i == |text| then [] else [text[i..LineEnd(text, i)]] + SplitLines(text, LineEnd(text, i))
  }

  /** The end of the last character among the first n that is not a break, or 0. */
  function BodyEnd(line: string, n: nat): (m: nat)
    requires n <= |line|
    ensures m <= n && (0 < m ==> !IsBreak(line[m - 1]))
  {
    if n == 0 || !IsBreak(line[n - 1]) then n else BodyEnd(line, n - 1)
  }

  /** len(line.rstrip("\r\n")) */
  function BreakStripped(line: string): (n: nat)
    ensures n <= |line| && (0 < n ==> !IsBreak(line[n - 1]))
  {
    BodyEnd(line, |line|)
  }

  lemma {:induction false} BodyEndBreaks(line: string, n: nat, i: nat)
    requires n <= |line| && BodyEnd(line, n) <= i < n
    ensures IsBreak(line[i])
  {
    if i < n - 1 {
      BodyEndBreaks(line, n - 1, i);
    }
  }

  datatype Paragraph = Paragraph(index: nat, start: nat, end: nat, text: string)

  /** The paragraphs of the lines from position i on, when index paragraphs precede them. */
  function ParagraphsFrom(text: string, i: nat, index: nat): seq<Paragraph>
    requires i <= |text|
    decreases |text| - i
  {
    if i == |text| then []
    else
      var e := LineEnd(text, i);
      var n := BreakStripped(text[i..e]);
      if n == 0 then ParagraphsFrom(text, e, index)
      else [Paragraph(index + 1, i, i + n, text[i..i + n])] + ParagraphsFrom(text, e, index + 1)
  }

  /** The paragraphs from i on are those of the next line's end on, after this line's if it is not empty. */
  lemma {:induction false} ParagraphsOfLine(text: string, i: nat, index: nat, e: nat, n: nat)
    requires i < |text| && e == LineEnd(text, i) && n == BreakStripped(text[i..e])
    ensures ParagraphsFrom(text, i, index)
         == if n == 0 then ParagraphsFrom(text, e, index)
            else [Paragraph(index + 1, i, i + n, text[i..i + n])] + ParagraphsFrom(text, e, index + 1)
  {
  }

  /** What one line adds to the paragraphs already collected. */
  lemma {:induction false} ParagraphsStep(text: string, i: nat, n: nat, before: seq<Paragraph>)
    requires i < |text| && n == BreakStripped(text[i..LineEnd(text, i)])
    ensures var after := if n == 0 then before else before + [Paragraph(|before| + 1, i, i + n, text[i..i + n])];
      before + ParagraphsFrom(text, i, |before|) == after + ParagraphsFrom(text, LineEnd(text, i), |after|)
  {
    var e := LineEnd(text, i);
    ParagraphsOfLine(text, i, |before|, e, n);
    if n > 0 {
      Regroup(before, [Paragraph(|before| + 1, i, i + n, text[i..i + n])], ParagraphsFrom(text, e, |before| + 1));
    }
  }

  /** One line of the loop: the paragraph it adds, if any. */
  method AddLine(text: string, offset: nat, sourceLine: string, before: seq<Paragraph>) returns (after: seq<Paragraph>)
    requires offset < |text| && sourceLine == text[offset..LineEnd(text, offset)]
    ensures before + ParagraphsFrom(text, offset, |before|)
         == after + ParagraphsFrom(text, LineEnd(text, offset), |after|)
  {
    var n := BreakStripped(sourceLine);
    var line := sourceLine[..n];
    PrefixOfSlice(text, offset, LineEnd(text, offset), n);
    ParagraphsStep(text, offset, n, before);
    after := before;
    if line != "" {
      after := after + [Paragraph(|after| + 1, offset, offset + |line|, line)];
    }
  }

  lemma {:induction false} LinesLeft(text: string, i: nat)
    requires i < |text|
    ensures SplitLines(text, i) != [] && SplitLines(text, i)[0] == text[i..LineEnd(text, i)]
    ensures SplitLines(text, i)[1..] == SplitLines(text, LineEnd(text, i))
  {
  }

  /** paragraphs: a running offset over splitlines(keepends=True). */
  method Paragraphs(text: string) returns (result: seq<Paragraph>)
    ensures result == ParagraphsFrom(text, 0, 0)
  {
    result := [];
    var offset := 0;
    var lines := SplitLines(text);
    NothingAdded(ParagraphsFrom(text, 0, 0));
    while lines != []
      invariant 0 <= offset <= |text|
      invariant lines == SplitLines(text, offset)
      invariant result + ParagraphsFrom(text, offset, |result|) == ParagraphsFrom(text, 0, 0)
      decreases |lines|
    {
      LinesLeft(text, offset);
      result := AddLine(text, offset, lines[0], result);
      offset := offset + |lines[0]|;
      lines := lines[1..];
    }
    if offset < |text| {
      LinesLeft(text, offset);
    }
    // The source's branch for text left over after the last line never runs.
    assert offset == |text|;
    NothingAdded(result);
  }

  // ----- what the paragraphs are ------------------------------------------

  /** Only a line's terminator contains \r or \n. */
  lemma {:induction false} BreaksEndTheLine(text: string, i: nat, j: nat)
    requires i <= j < |text| && j < LineEnd(text, i) && IsBreak(text[j])
    ensures IsBreak(text[LineEnd(text, i) - 1]) && LineEnd(text, i) <= j + 2
    ensures j + 2 == LineEnd(text, i) ==> text[j] == '\r' && text[j + 1] == '\n'
    decreases |text| - i
  {
    if i < j && !(text[i] == '\r' && text[i + 1] == '\n') {
      BreaksEndTheLine(text, i + 1, j);
    }
  }

  lemma {:induction false} LineBodyHasNoBreak(text: string, i: nat, j: nat)
    requires i < |text|
    requires i <= j < i + BreakStripped(text[i..LineEnd(text, i)])
    ensures !IsBreak(text[j])
  {
    var n := BreakStripped(text[i..LineEnd(text, i)]);
    assert text[i..LineEnd(text, i)][n - 1] == text[i + n - 1];
    if IsBreak(text[j]) {
      BreaksEndTheLine(text, i, j);
    }
  }

  /** s with every \r and \n deleted. */
  function WithoutBreaks(s: string): string {
    if s == [] then []
    else
      var before := WithoutBreaks(s[..|s| - 1]);
      if IsBreak(s[|s| - 1]) then before else before + [s[|s| - 1]]
  }

  lemma {:induction false} WithoutBreaksAppend(a: string, b: string)
    ensures WithoutBreaks(a + b) == WithoutBreaks(a) + WithoutBreaks(b)
  {
    if b == [] {
      assert a + b == a;
    } else {
      assert (a + b)[..|a + b| - 1] == a + b[..|b| - 1];
      WithoutBreaksAppend(a, b[..|b| - 1]);
    }
  }

  lemma {:induction false} NothingToDelete(s: string)
    requires forall i :: 0 <= i < |s| ==> !IsBreak(s[i])
    ensures WithoutBreaks(s) == s
  {
    if s != [] {
      NothingToDelete(s[..|s| - 1]);
    }
  }

  lemma {:induction false} AllDeleted(s: string)
    requires forall i :: 0 <= i < |s| ==> IsBreak(s[i])
    ensures WithoutBreaks(s) == []
  {
    if s != [] {
      AllDeleted(s[..|s| - 1]);
    }
  }

  // ----- highlights -------------------------------------------------------

  datatype Range = Range(paragraph: nat, start: int, end: int)
  datatype Highlight = Highlight(charStart: int, charEnd: int, first: nat, last: nat, ranges: seq<Range>)

  function Max(a: int, b: int): int { if a < b then b else a }

  function Min(a: int, b: int): int { if a < b then a else b }

  /** The part of the span [a, b) inside one paragraph. */
  function Intersect(p: Paragraph, a: int, b: int): seq<Range> {
    var left := Max(a, p.start);
    var right := Min(b, p.end);
    if left < right then [Range(p.index, left - p.start, right - p.start)] else []
  }

  function RangesOf(derived: seq<Paragraph>, a: int, b: int): seq<Range> {
    if derived == [] then []
    else RangesOf(derived[..|derived| - 1], a, b) + Intersect(derived[|derived| - 1], a, b)
  }

  function HighlightOf(
    sourceStart: int, sourceEnd: int, sectionStart: int, derived: seq<Paragraph>): Option<Highlight> {
    var a := sourceStart - sectionStart;
    var b := sourceEnd - sectionStart;
    var ranges := RangesOf(derived, a, b);
    if a < 0 || b <= a || ranges == [] then None
    else Some(Highlight(a, b, ranges[0].paragraph, ranges[|ranges| - 1].paragraph, ranges))
  }

  lemma {:induction false} RangesUpTo(derived: seq<Paragraph>, k: nat, a: int, b: int)
    requires k < |derived|
    ensures RangesOf(derived[..k + 1], a, b) == RangesOf(derived[..k], a, b) + Intersect(derived[k], a, b)
  {
    assert derived[..k + 1][..k] == derived[..k];
  }

  /** The loop of highlight_for. */
  method CollectRanges(derived: seq<Paragraph>, start: int, end: int) returns (ranges: seq<Range>)
    ensures ranges == RangesOf(derived, start, end)
  {
    ranges := [];
    for k := 0 to |derived|
      invariant ranges == RangesOf(derived[..k], start, end)
    {
      var paragraph := derived[k];
      var left := if start < paragraph.start then paragraph.start else start;
      var right := if end < paragraph.end then end else paragraph.end;
      RangesUpTo(derived, k, start, end);
      if left < right {
        ranges := ranges + [Range(paragraph.index, left - paragraph.start, right - paragraph.start)];
      }
    }
    assert derived[..|derived|] == derived;
  }

  /** highlight_for */
  method HighlightFor(sourceStart: int, sourceEnd: int, sectionStart: int, derived: seq<Paragraph>)
    returns (r: Option<Highlight>)
    ensures r == HighlightOf(sourceStart, sourceEnd, sectionStart, derived)
  {
    var start := sourceStart - sectionStart;
    var end := sourceEnd - sectionStart;
    if start < 0 || end <= start {
      return None;
    }
    var ranges := CollectRanges(derived, start, end);
    if ranges == [] {
      return None;
    }
    return Some(Highlight(start, end, ranges[0].paragraph, ranges[|ranges| - 1].paragraph, ranges));
  }

  predicate ValidRange(derived: seq<Paragraph>, r: Range) {
    && 1 <= r.paragraph <= |derived|
    && 0 <= r.start < r.end <= |derived[r.paragraph - 1].text|
  }

  /** What the marks of one paragraph's range say. */
  function MarkOf(derived: seq<Paragraph>, r: Range): string
    requires ValidRange(derived, r)
  {
    derived[r.paragraph - 1].text[r.start..r.end]
  }

  function LastParagraph(ranges: seq<Range>): nat {
    if ranges == [] then 0 else ranges[|ranges| - 1].paragraph
  }

  /** In-bounds ranges, at most one to a paragraph and in paragraph order. */
  predicate ValidRanges(derived: seq<Paragraph>, ranges: seq<Range>) {
    ranges == [] ||
    var before := ranges[..|ranges| - 1];
    && ValidRanges(derived, before)
    && LastParagraph(before) < LastParagraph(ranges)
    && ValidRange(derived, ranges[|ranges| - 1])
  }

  lemma {:induction false} RangesAreDisjoint(derived: seq<Paragraph>, ranges: seq<Range>, i: nat, j: nat)
    requires ValidRanges(derived, ranges) && i <= j < |ranges|
    ensures ValidRange(derived, ranges[i]) && ValidRange(derived, ranges[j])
    ensures i < j ==> ranges[i].paragraph < ranges[j].paragraph
  {
    if j < |ranges| - 1 {
      RangesAreDisjoint(derived, ranges[..|ranges| - 1], i, j);
    } else if i < j {
      RangesAreDisjoint(derived, ranges[..|ranges| - 1], i, |ranges| - 2);
    }
  }

  /** All marks read one after the other. */
  function Spelled(derived: seq<Paragraph>, ranges: seq<Range>): string
    requires ValidRanges(derived, ranges)
  {
    if ranges == [] then []
    else Spelled(derived, ranges[..|ranges| - 1]) + MarkOf(derived, ranges[|ranges| - 1])
  }

  // ----- the marks spell the chunk ----------------------------------------

  predicate Shaped(p: Paragraph) {
    0 <= p.start && p.end == p.start + |p.text|
  }

  predicate AllShaped(ps: seq<Paragraph>) {
    ps == [] || (AllShaped(ps[..|ps| - 1]) && Shaped(ps[|ps| - 1]))
  }

  /** The part of the span [a, b) that paragraph p shows. */
  function Shown(p: Paragraph, a: int, b: int): string
    requires Shaped(p)
  {
    var left := Max(a, p.start);
    var right := Min(b, p.end);
    if left < right then p.text[left - p.start..right - p.start] else []
  }

  function ShownByAll(ps: seq<Paragraph>, a: int, b: int): string
    requires AllShaped(ps)
  {
    if ps == [] then [] else ShownByAll(ps[..|ps| - 1], a, b) + Shown(ps[|ps| - 1], a, b)
  }

  lemma {:induction false} ParagraphsNumbered(text: string, i: nat, index: nat, j: nat)
    requires i <= |text| && j < |ParagraphsFrom(text, i, index)|
    ensures ParagraphsFrom(text, i, index)[j].index == index + j + 1
    decreases |text| - i
  {
    var e := LineEnd(text, i);
    var n := BreakStripped(text[i..e]);
    if n == 0 {
      ParagraphsNumbered(text, e, index, j);
    } else if j > 0 {
      ParagraphsNumbered(text, e, index + 1, j - 1);
    }
  }

  predicate Numbered(ps: seq<Paragraph>) {
    forall j :: 0 <= j < |ps| ==> ps[j].index == j + 1
  }

  lemma {:induction false} AllNumbered(text: string)
    ensures Numbered(ParagraphsFrom(text, 0, 0))
  {
    var ps := ParagraphsFrom(text, 0, 0);
    forall j | 0 <= j < |ps|
      ensures ps[j].index == j + 1
    {
      ParagraphsNumbered(text, 0, 0, j);
    }
  }

  /** The part of [a, b) that lies at or after i. */
  function Clip(text: string, a: nat, b: nat, i: nat): string
    requires a <= b <= |text| && i <= |text|
  {
    text[Max(a, i)..Max(b, i)]
  }

  /** The point m, moved into the part of [a, b) that lies at or after i. */
  function Cut(a: nat, b: nat, i: nat, m: nat): nat {
    Max(Max(a, i), Min(Max(b, i), m))
  }

  /** A span cut at the end of a line's body and at the end of the line. */
  lemma {:induction false} ClipSplit(text: string, i: nat, m: nat, e: nat, a: nat, b: nat)
    requires a <= b <= |text| && i <= m <= e <= |text|
    ensures Clip(text, a, b, i)
         == text[Max(a, i)..Cut(a, b, i, m)] + text[Cut(a, b, i, m)..Cut(a, b, i, e)] + Clip(text, a, b, e)
  {
    var lo, hi, x, y := Max(a, i), Max(b, i), Cut(a, b, i, m), Cut(a, b, i, e);
    assert lo <= x <= y <= hi;
    assert text[lo..hi] == text[lo..x] + text[x..y] + text[y..hi];
    if hi <= e {
      assert text[y..hi] == [] == Clip(text, a, b, e);
    }
  }

  lemma {:induction false} KeepThenDrop(whole: string, body: string, term: string, rest: string)
    requires whole == body + term + rest && WithoutBreaks(body) == body && WithoutBreaks(term) == []
    ensures WithoutBreaks(whole) == body + WithoutBreaks(rest)
  {
    WithoutBreaksAppend(body + term, rest);
    WithoutBreaksAppend(body, term);
    assert body + [] == body;
  }

  /** One line's share of the span: its body is shown, its terminator is dropped. */
  lemma {:induction false} LineShare(text: string, i: nat, e: nat, n: nat, a: nat, b: nat)
    requires a <= b <= |text| && i < |text|
    requires e == LineEnd(text, i) && n == BreakStripped(text[i..e])
    ensures WithoutBreaks(Clip(text, a, b, i))
         == Shown(Paragraph(0, i, i + n, text[i..i + n]), a, b) + WithoutBreaks(Clip(text, a, b, e))
  {
    LinePieces(text, i, e, n, a, b);
    KeptShare(text, i, e, n, a, b);
  }

  lemma {:induction false} KeptShare(text: string, i: nat, e: nat, n: nat, a: nat, b: nat)
    requires a <= b <= |text| && i + n <= e <= |text|
    requires Cut(a, b, i, i + n) <= Cut(a, b, i, e) <= |text|
    requires var lo, x, y := Max(a, i), Cut(a, b, i, i + n), Cut(a, b, i, e);
      WithoutBreaks(text[lo..x]) == text[lo..x] && WithoutBreaks(text[x..y]) == []
    ensures WithoutBreaks(Clip(text, a, b, i))
         == Shown(Paragraph(0, i, i + n, text[i..i + n]), a, b) + WithoutBreaks(Clip(text, a, b, e))
  {
    var lo, x, y := Max(a, i), Cut(a, b, i, i + n), Cut(a, b, i, e);
    ClipSplit(text, i, i + n, e, a, b);
    KeepThenDrop(Clip(text, a, b, i), text[lo..x], text[x..y], Clip(text, a, b, e));
    ShownIsSlice(text, i, n, a, b, lo, x);
  }

  lemma {:induction false} LinePieces(text: string, i: nat, e: nat, n: nat, a: nat, b: nat)
    requires a <= b <= |text| && i < |text|
    requires e == LineEnd(text, i) && n == BreakStripped(text[i..e])
    ensures var lo, x, y := Max(a, i), Cut(a, b, i, i + n), Cut(a, b, i, e);
      lo <= x <= y <= |text| && WithoutBreaks(text[lo..x]) == text[lo..x] && WithoutBreaks(text[x..y]) == []
  {
    LineBodyIsKept(text, i, Max(a, i), Cut(a, b, i, i + n));
    LineTermIsDropped(text, i, Cut(a, b, i, i + n), Cut(a, b, i, e));
  }

  lemma {:induction false} LineBodyIsKept(text: string, i: nat, lo: nat, hi: nat)
    requires i < |text| && i <= lo <= hi <= |text|
    requires hi <= i + BreakStripped(text[i..LineEnd(text, i)]) || lo == hi
    ensures WithoutBreaks(text[lo..hi]) == text[lo..hi]
  {
    forall j | 0 <= j < hi - lo
      ensures !IsBreak(text[lo..hi][j])
    {
      LineBodyHasNoBreak(text, i, lo + j);
    }
    NothingToDelete(text[lo..hi]);
  }

  lemma {:induction false} LineTermIsDropped(text: string, i: nat, lo: nat, hi: nat)
    requires i < |text| && i <= lo <= hi <= |text|
    requires (i + BreakStripped(text[i..LineEnd(text, i)]) <= lo && hi <= LineEnd(text, i)) || lo == hi
    ensures WithoutBreaks(text[lo..hi]) == []
  {
    var line := text[i..LineEnd(text, i)];
    forall j | 0 <= j < hi - lo
      ensures IsBreak(text[lo..hi][j])
    {
      BodyEndBreaks(line, |line|, lo + j - i);
      assert text[lo..hi][j] == line[lo + j - i];
    }
    AllDeleted(text[lo..hi]);
  }

  lemma {:induction false} ShownIsSlice(text: string, i: nat, n: nat, a: nat, b: nat, lo: nat, bodyEnd: nat)
    requires a <= b && i + n <= |text|
    requires lo == Max(a, i) && bodyEnd == Cut(a, b, i, i + n) && bodyEnd <= |text|
    ensures Shown(Paragraph(0, i, i + n, text[i..i + n]), a, b) == text[lo..bodyEnd]
  {
    if lo < Min(b, i + n) {
      SliceOfSlice(text, i, i + n, lo - i, bodyEnd - i);
    }
  }

  lemma {:induction false} ShownIgnoresIndex(p: Paragraph, a: int, b: int)
    requires Shaped(p)
    ensures Shown(p, a, b) == Shown(p.(index := 0), a, b)
  {
  }

  /** One line's contribution to what the paragraphs show. */
  lemma {:induction false} LineShown(ps: seq<Paragraph>, rest: seq<Paragraph>, p: Paragraph, a: int, b: int)
    requires AllShaped(rest) && Shaped(p)
    requires ps == if p.start == p.end then rest else [p] + rest
    ensures AllShaped(ps)
    ensures ShownByAll(ps, a, b) == Shown(p.(index := 0), a, b) + ShownByAll(rest, a, b)
  {
    if p.start == p.end {
      assert Shown(p.(index := 0), a, b) == [];
      NothingAdded(ShownByAll(rest, a, b));
    } else {
      FirstShown(p, rest, a, b);
      ShownIgnoresIndex(p, a, b);
    }
  }

  lemma {:induction false} ShowLine(
    text: string, i: nat, e: nat, n: nat, p: Paragraph, a: nat, b: nat, rest: seq<Paragraph>, ps: seq<Paragraph>)
    requires a <= b <= |text| && i < |text|
    requires e == LineEnd(text, i) && n == BreakStripped(text[i..e])
    requires p.start == i && p.end == i + n && p.text == text[i..i + n]
    requires ps == if p.start == p.end then rest else [p] + rest
    requires AllShaped(rest) && ShownByAll(rest, a, b) == WithoutBreaks(Clip(text, a, b, e))
    ensures AllShaped(ps) && ShownByAll(ps, a, b) == WithoutBreaks(Clip(text, a, b, i))
  {
    LineShare(text, i, e, n, a, b);
    assert p.(index := 0) == Paragraph(0, i, i + n, text[i..i + n]);
    LineShown(ps, rest, p, a, b);
  }

  /** What the paragraphs from i on show of a span is that span with its breaks deleted. */
  lemma {:induction false} ParagraphsShowSpan(text: string, i: nat, index: nat, a: nat, b: nat)
    requires a <= b <= |text| && i <= |text|
    ensures AllShaped(ParagraphsFrom(text, i, index))
    ensures ShownByAll(ParagraphsFrom(text, i, index), a, b) == WithoutBreaks(Clip(text, a, b, i))
    decreases |text| - i
  {
    if i < |text| {
      var e := LineEnd(text, i);
      var n := BreakStripped(text[i..e]);
      var next := if n == 0 then index else index + 1;
      ParagraphsShowSpan(text, e, next, a, b);
      ParagraphsOfLine(text, i, index, e, n);
      ShowLine(text, i, e, n, Paragraph(index + 1, i, i + n, text[i..i + n]), a, b,
               ParagraphsFrom(text, e, next), ParagraphsFrom(text, i, index));
    } else {
      assert Clip(text, a, b, i) == "";
    }
  }

  lemma {:induction false} FirstShown(p: Paragraph, ps: seq<Paragraph>, a: int, b: int)
    requires Shaped(p) && AllShaped(ps)
    ensures AllShaped([p] + ps)
    ensures ShownByAll([p] + ps, a, b) == Shown(p, a, b) + ShownByAll(ps, a, b)
  {
    if ps == [] {
      LastShown([], p, a, b);
      NothingAdded([p]);
      NothingAdded(Shown(p, a, b));
    } else {
      var before, last := ps[..|ps| - 1], ps[|ps| - 1];
      FirstShown(p, before, a, b);
      LastShown([p] + before, last, a, b);
      ConsLast(p, ps);
      Regroup(Shown(p, a, b), ShownByAll(before, a, b), Shown(last, a, b));
    }
  }

  lemma {:induction false} LastShown(ps: seq<Paragraph>, q: Paragraph, a: int, b: int)
    requires AllShaped(ps) && Shaped(q)
    ensures AllShaped(ps + [q])
    ensures ShownByAll(ps + [q], a, b) == ShownByAll(ps, a, b) + Shown(q, a, b)
  {
    assert (ps + [q])[..|ps|] == ps;
  }

  // ----- what a paragraph is ----------------------------------------------

  /**
   The paragraph is one line of the text without the breaks at its end: it begins where a line
   begins, holds no line boundary but perhaps as its last character, ends before the breaks
   that end its line, and is not empty.
   */
  predicate IsLineOf(text: string, p: Paragraph) {
    && 0 <= p.start < p.end <= |text| && p.text == text[p.start..p.end]
    && (p.start == 0 || IsLineBoundary(text[p.start - 1]))
    && (forall j :: p.start <= j < p.end - 1 ==> !IsLineBoundary(text[j]))
    && !IsBreak(text[p.end - 1])
    && (p.end == |text| || IsBreak(text[p.end]) || IsLineBoundary(text[p.end - 1]))
  }

  lemma {:induction false} LineOf(text: string, i: nat, index: nat)
    requires i < |text| && (i == 0 || IsLineBoundary(text[i - 1]))
    ensures var e := LineEnd(text, i);
      var n := BreakStripped(text[i..e]);
      && (e < |text| ==> IsLineBoundary(text[e - 1]))
      && (n > 0 ==> IsLineOf(text, Paragraph(index, i, i + n, text[i..i + n])))
  {
    var e := LineEnd(text, i);
    LineEndIs(text, i);
    StrippedLine(text, i, e, BreakStripped(text[i..e]), index);
  }

  lemma {:induction false} StrippedLine(text: string, i: nat, e: nat, n: nat, index: nat)
    requires i < e <= |text| && (i == 0 || IsLineBoundary(text[i - 1])) && WithinLine(text, i, e)
    requires e < |text| ==> IsLineBoundary(text[e - 1]) && !(text[e - 1] == '\r' && text[e] == '\n')
    requires n == BreakStripped(text[i..e])
    ensures n > 0 ==> IsLineOf(text, Paragraph(index, i, i + n, text[i..i + n]))
  {
    if n > 0 {
      assert text[i..e][n - 1] == text[i + n - 1];
      if i + n < e {
        BodyEndBreaks(text[i..e], e - i, n);
        assert text[i..e][n] == text[i + n];
      }
    }
  }

  predicate AllLines(text: string, ps: seq<Paragraph>) {
    forall p :: p in ps ==> IsLineOf(text, p)
  }

  lemma {:induction false} FirstLine(text: string, p: Paragraph, ps: seq<Paragraph>)
    requires IsLineOf(text, p) && AllLines(text, ps)
    ensures AllLines(text, [p] + ps)
  {
  }

  lemma {:induction false} LinesFrom(text: string, i: nat, index: nat)
    requires i <= |text| && (i == 0 || i == |text| || IsLineBoundary(text[i - 1]))
    ensures AllLines(text, ParagraphsFrom(text, i, index))
    decreases |text| - i
  {
    if i < |text| {
      var e := LineEnd(text, i);
      var n := BreakStripped(text[i..e]);
      LineOf(text, i, index + 1);
      LinesFrom(text, e, if n == 0 then index else index + 1);
      ParagraphsOfLine(text, i, index, e, n);
      if n > 0 {
        FirstLine(text, Paragraph(index + 1, i, i + n, text[i..i + n]), ParagraphsFrom(text, e, index + 1));
      }
    }
  }

  /** Every paragraph is a line of the section. */
  lemma {:induction false} ParagraphsAreLines(text: string)
    ensures forall p :: p in ParagraphsFrom(text, 0, 0) ==> IsLineOf(text, p)
  {
    LinesFrom(text, 0, 0);
  }

  // ----- from shown text to ranges ----------------------------------------

  lemma {:induction false} SpelledStep(derived: seq<Paragraph>, before: seq<Range>, r: Range)
    requires ValidRanges(derived, before) && ValidRange(derived, r)
    requires LastParagraph(before) < r.paragraph
    ensures ValidRanges(derived, before + [r])
    ensures Spelled(derived, before + [r]) == Spelled(derived, before) + MarkOf(derived, r)
  {
    assert (before + [r])[..|before|] == before;
  }

  /** What the k-th paragraph adds to the ranges of the ones before it. */
  lemma {:induction false} IntersectStep(derived: seq<Paragraph>, before: seq<Range>, a: int, b: int, k: nat)
    requires k < |derived| && Shaped(derived[k]) && derived[k].index == k + 1
    requires ValidRanges(derived, before) && LastParagraph(before) <= k
    ensures ValidRanges(derived, before + Intersect(derived[k], a, b))
    ensures LastParagraph(before + Intersect(derived[k], a, b)) <= k + 1
    ensures Spelled(derived, before + Intersect(derived[k], a, b))
         == Spelled(derived, before) + Shown(derived[k], a, b)
  {
    var piece := Intersect(derived[k], a, b);
    if piece == [] {
      assert before + piece == before;
      assert Spelled(derived, before) + [] == Spelled(derived, before);
    } else {
      SpelledStep(derived, before, piece[0]);
    }
  }

  /** The ranges over a prefix of the paragraphs. */
  lemma {:induction false} RangesOfPrefix(derived: seq<Paragraph>, ps: seq<Paragraph>, a: int, b: int)
    requires AllShaped(ps) && Numbered(derived) && ps <= derived
    ensures ValidRanges(derived, RangesOf(ps, a, b))
    ensures LastParagraph(RangesOf(ps, a, b)) <= |ps|
    ensures Spelled(derived, RangesOf(ps, a, b)) == ShownByAll(ps, a, b)
  {
    if ps != [] {
      var k := |ps| - 1;
      var rest, p := ps[..k], ps[k];
      assert p == derived[k];
      RangesOfPrefix(derived, rest, a, b);
      IntersectStep(derived, RangesOf(rest, a, b), a, b, k);
    }
  }

  /** What a reader sees marked, or None when the ranges do not fit the paragraphs. */
  function MarksOf(derived: seq<Paragraph>, ranges: seq<Range>): Option<string> {
    if ValidRanges(derived, ranges) then Some(Spelled(derived, ranges)) else None
  }

  /**
   For any section text and any span of it: the ranges are in bounds, disjoint and at
   most one to a paragraph, and read in order they spell the span without its breaks.
   */
  lemma {:induction false} RangesSpellSpan(text: string, a: nat, b: nat)
    requires a <= b <= |text|
    ensures MarksOf(ParagraphsFrom(text, 0, 0), RangesOf(ParagraphsFrom(text, 0, 0), a, b))
         == Some(WithoutBreaks(text[a..b]))
  {
    var derived := ParagraphsFrom(text, 0, 0);
    AllNumbered(text);
    ParagraphsShowSpan(text, 0, 0, a, b);
    RangesOfPrefix(derived, derived, a, b);
    assert Clip(text, a, b, 0) == text[a..b];
  }

  lemma {:induction false} NothingSpelled(derived: seq<Paragraph>, ranges: seq<Range>, spelled: string)
    requires MarksOf(derived, ranges) == Some(spelled)
    ensures spelled == [] <==> ranges == []
  {
    if ranges != [] {
      assert MarkOf(derived, ranges[|ranges| - 1]) != [];
    }
  }

  lemma {:induction false} HighlightNeedsRanges(
    derived: seq<Paragraph>, sourceStart: int, sourceEnd: int, sectionStart: int)
    ensures var a, b := sourceStart - sectionStart, sourceEnd - sectionStart;
      var h := HighlightOf(sourceStart, sourceEnd, sectionStart, derived);
      && (h.Some? <==> (0 <= a < b && RangesOf(derived, a, b) != []))
      && (h.Some? ==> h.value.ranges == RangesOf(derived, a, b) && h.value.charStart == a && h.value.charEnd == b)
  {
  }

  /** A nonempty span whose ranges spell some text resolves exactly when that text is not empty. */
  lemma {:induction false} HighlightOfSpelled(
    derived: seq<Paragraph>, sourceStart: int, sourceEnd: int, sectionStart: int, spelled: string)
    requires 0 <= sourceStart - sectionStart < sourceEnd - sectionStart
    requires MarksOf(derived, RangesOf(derived, sourceStart - sectionStart, sourceEnd - sectionStart)) == Some(spelled)
    ensures HighlightOf(sourceStart, sourceEnd, sectionStart, derived).Some? == (spelled != [])
    ensures spelled != [] ==>
      MarksOf(derived, HighlightOf(sourceStart, sourceEnd, sectionStart, derived).value.ranges) == Some(spelled)
  {
    NothingSpelled(derived, RangesOf(derived, sourceStart - sectionStart, sourceEnd - sectionStart), spelled);
    HighlightNeedsRanges(derived, sourceStart, sourceEnd, sectionStart);
  }

  lemma {:induction false} ParagraphsInside(text: string, i: nat, index: nat, j: nat)
    requires i <= |text| && j < |ParagraphsFrom(text, i, index)|
    ensures ParagraphsFrom(text, i, index)[j].end <= |text|
    decreases |text| - i
  {
    var e := LineEnd(text, i);
    var n := BreakStripped(text[i..e]);
    if n == 0 {
      ParagraphsInside(text, e, index, j);
    } else if j > 0 {
      ParagraphsInside(text, e, index + 1, j - 1);
    }
  }

  /** Beyond the end of every paragraph a span has no ranges. */
  lemma {:induction false} RangesStop(derived: seq<Paragraph>, a: int, b: int, end: int)
    requires forall p :: p in derived ==> p.end <= end
    ensures RangesOf(derived, a, b) == RangesOf(derived, a, Min(b, end))
    ensures end <= a ==> RangesOf(derived, a, b) == []
  {
    if derived != [] {
      var before, p := derived[..|derived| - 1], derived[|derived| - 1];
      assert p in derived && forall q :: q in before ==> q in derived;
      RangesStop(before, a, b, end);
    }
  }

  lemma {:induction false} SectionEnds(text: string)
    ensures forall p :: p in ParagraphsFrom(text, 0, 0) ==> p.end <= |text|
  {
    var derived := ParagraphsFrom(text, 0, 0);
    forall p | p in derived
      ensures p.end <= |text|
    {
      var j :| 0 <= j < |derived| && derived[j] == p;
      ParagraphsInside(text, 0, 0, j);
    }
  }

  /** A span resolves exactly when the part of it before the end of the paragraphs spells something. */
  lemma {:induction false} HighlightUpTo(
    derived: seq<Paragraph>, sourceStart: int, sourceEnd: int, sectionStart: int, end: int, spelled: string)
    requires forall p :: p in derived ==> p.end <= end
    requires var a, b := sourceStart - sectionStart, Min(sourceEnd - sectionStart, end);
      if 0 <= a < b then MarksOf(derived, RangesOf(derived, a, b)) == Some(spelled) else spelled == []
    ensures HighlightOf(sourceStart, sourceEnd, sectionStart, derived).Some? <==> spelled != []
  {
    HighlightNeedsRanges(derived, sourceStart, sourceEnd, sectionStart);
    RangesUpToEnd(derived, sourceStart - sectionStart, sourceEnd - sectionStart, end, spelled);
  }

  lemma {:induction false} RangesUpToEnd(derived: seq<Paragraph>, a: int, b: int, end: int, spelled: string)
    requires forall p :: p in derived ==> p.end <= end
    requires if 0 <= a < Min(b, end) then MarksOf(derived, RangesOf(derived, a, Min(b, end))) == Some(spelled)
             else spelled == []
    ensures 0 <= a < b && RangesOf(derived, a, b) != [] <==> spelled != []
  {
    RangesStop(derived, a, b, end);
    if 0 <= a < Min(b, end) {
      NothingSpelled(derived, RangesOf(derived, a, Min(b, end)), spelled);
    }
  }

  /** The characters of the span [a, b) that the section has and that are not line breaks. */
  function Readable(text: string, a: int, b: int): string {
    if 0 <= a < Min(b, |text|) then WithoutBreaks(text[a..Min(b, |text|)]) else []
  }

  /** Exactly which spans resolve: those that hold something besides line breaks inside the section. */
  lemma {:induction false} HighlightIff(text: string, sourceStart: int, sourceEnd: int, sectionStart: int)
    ensures HighlightOf(sourceStart, sourceEnd, sectionStart, ParagraphsFrom(text, 0, 0)).Some?
       <==> Readable(text, sourceStart - sectionStart, sourceEnd - sectionStart) != []
  {
    var a, b := sourceStart - sectionStart, Min(sourceEnd - sectionStart, |text|);
    SectionEnds(text);
    if 0 <= a < b {
      RangesSpellSpan(text, a, b);
    }
    HighlightUpTo(
      ParagraphsFrom(text, 0, 0), sourceStart, sourceEnd, sectionStart, |text|,
      Readable(text, sourceStart - sectionStart, sourceEnd - sectionStart));
  }

  /** The highlight names its place in the section and its first and last paragraph. */
  lemma {:induction false} HighlightNames(
    derived: seq<Paragraph>, sourceStart: int, sourceEnd: int, sectionStart: int, i: nat)
    requires HighlightOf(sourceStart, sourceEnd, sectionStart, derived).Some?
    requires var h := HighlightOf(sourceStart, sourceEnd, sectionStart, derived).value;
      ValidRanges(derived, h.ranges) && i < |h.ranges|
    ensures var h := HighlightOf(sourceStart, sourceEnd, sectionStart, derived).value;
      && h.charStart == sourceStart - sectionStart && h.charEnd == sourceEnd - sectionStart
      && h.first <= h.ranges[i].paragraph <= h.last
      && (exists r :: r in h.ranges && r.paragraph == h.first)
      && (exists r :: r in h.ranges && r.paragraph == h.last)
  {
    var ranges := HighlightOf(sourceStart, sourceEnd, sectionStart, derived).value.ranges;
    RangesAreDisjoint(derived, ranges, 0, i);
    RangesAreDisjoint(derived, ranges, i, |ranges| - 1);
    assert ranges[0] in ranges && ranges[|ranges| - 1] in ranges;
  }

  /** Every character of the section but its \r and \n is in a paragraph. */
  lemma {:induction false} ParagraphsHoldEverything(text: string)
    ensures AllShaped(ParagraphsFrom(text, 0, 0)) && Numbered(ParagraphsFrom(text, 0, 0))
    ensures ShownByAll(ParagraphsFrom(text, 0, 0), 0, |text|) == WithoutBreaks(text)
  {
    AllNumbered(text);
    ParagraphsShowSpan(text, 0, 0, 0, |text|);
    assert Clip(text, 0, |text|, 0) == text;
  }

  /** What the reader marks for the span of chunk c, or None when it does not resolve. */
  function ReaderMarks(derived: seq<Paragraph>, sectionStart: int, c: Chunk): Option<string> {
    match HighlightOf(c.start, c.end, sectionStart, derived)
    case None => None
    case Some(h) => MarksOf(derived, h.ranges)
  }

  /** A visible character survives the deletion of breaks. */
  lemma {:induction false} VisibleSurvives(s: string)
    requires s != [] && !IsSpace(s[|s| - 1])
    ensures WithoutBreaks(s) != []
  {
  }

  lemma {:induction false} ResolvedMarks(derived: seq<Paragraph>, sectionStart: int, c: Chunk)
    requires 0 <= c.start - sectionStart < c.end - sectionStart
    requires c.text != [] && !IsSpace(c.text[|c.text| - 1])
    requires MarksOf(derived, RangesOf(derived, c.start - sectionStart, c.end - sectionStart))
          == Some(WithoutBreaks(c.text))
    ensures ReaderMarks(derived, sectionStart, c) == Some(WithoutBreaks(c.text))
  {
    VisibleSurvives(c.text);
    HighlightOfSpelled(derived, c.start, c.end, sectionStart, WithoutBreaks(c.text));
  }

  lemma {:induction false} SpanIsMarked(text: string, sectionStart: int, c: Chunk, a: nat, b: nat)
    requires a == c.start - sectionStart && b == c.end - sectionStart && a < b <= |text|
    requires c.text == text[a..b] && !IsSpace(c.text[|c.text| - 1])
    ensures ReaderMarks(ParagraphsFrom(text, 0, 0), sectionStart, c) == Some(WithoutBreaks(c.text))
  {
    RangesSpellSpan(text, a, b);
    ResolvedMarks(ParagraphsFrom(text, 0, 0), sectionStart, c);
  }

  /**
   Every chunk cut from a section resolves in the reader, and what the reader marks is
   the chunk's text without its line breaks.
   */
  lemma {:induction false} ChunkIsHighlighted(
    doc: Document, text: string, size: nat, sectionStart: int, c: Chunk, ordinal: nat)
    requires GoodChunk(doc, text, size, sectionStart, c, ordinal)
    ensures ReaderMarks(ParagraphsFrom(text, 0, 0), sectionStart, c) == Some(WithoutBreaks(c.text))
  {
    SpanIsMarked(text, sectionStart, c, c.start - sectionStart, c.end - sectionStart);
  }
}
