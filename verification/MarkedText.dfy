/**
 markedText of frontend/src/pages/CorpusReader.tsx, over a paragraph's UTF-16 code
 units. The server's ranges count code points, so the two agree only up to the first
 character outside the basic multilingual plane.
 */
module MarkedText {
  import opened Sequences
  import opened Chunking
  import C = CorpusReader
  import E = Extraction

  datatype Span = Span(start: nat, end: nat)

  datatype Piece<T> = Plain(units: seq<T>) | Mark(units: seq<T>)

  /** String.prototype.slice for nonnegative arguments. */
  function JsSlice<T>(s: seq<T>, a: nat, b: nat): seq<T> {
    var hi := if b < |s| then b else |s|;
    if a < hi then s[a..hi] else []
  }

  function PiecesFrom<T>(text: seq<T>, ranges: seq<Span>, cursor: nat): seq<Piece<T>> {
    if ranges == [] then [Plain(JsSlice(text, cursor, |text|))]
    else
      [Plain(JsSlice(text, cursor, ranges[0].start)), Mark(JsSlice(text, ranges[0].start, ranges[0].end))]
      + PiecesFrom(text, ranges[1..], ranges[0].end)
  }

  method Render<T>(text: seq<T>, ranges: seq<Span>) returns (output: seq<Piece<T>>)
    ensures output == if ranges == [] then [Plain(text)] else PiecesFrom(text, ranges, 0)
  {
    if ranges == [] {
      return [Plain(text)];
    }
    output := [];
    var cursor := 0;
    var rest := ranges;
    while rest != []
      invariant output + PiecesFrom(text, rest, cursor) == PiecesFrom(text, ranges, 0)
      decreases |rest|
    {
      var range := rest[0];
      ghost var before := output;
      output := output + [Plain(JsSlice(text, cursor, range.start)), Mark(JsSlice(text, range.start, range.end))];
      Regroup(before, PiecesFrom(text, rest, cursor)[..2], PiecesFrom(text, rest[1..], range.end));
      cursor := range.end;
      rest := rest[1..];
    }
    output := output + [Plain(JsSlice(text, cursor, |text|))];
  }

  function Shown<T>(pieces: seq<Piece<T>>): seq<T> {
    if pieces == [] then [] else pieces[0].units + Shown(pieces[1..])
  }

  /** Ascending, disjoint spans inside the text, none before cursor. */
  predicate Fits<T>(text: seq<T>, ranges: seq<Span>, cursor: nat) {
    if ranges == [] then cursor <= |text|
    else cursor <= ranges[0].start <= ranges[0].end && Fits(text, ranges[1..], ranges[0].end)
  }

  lemma {:induction false} FitsInside<T>(text: seq<T>, ranges: seq<Span>, cursor: nat)
    requires Fits(text, ranges, cursor)
    ensures cursor <= |text|
  {
    if ranges != [] {
      FitsInside(text, ranges[1..], ranges[0].end);
    }
  }

  lemma {:induction false} SliceInside<T>(s: seq<T>, a: nat, b: nat)
    requires a <= b <= |s|
    ensures JsSlice(s, a, b) == s[a..b]
  {
  }

  /** Marking never adds, drops or moves a character. */
  lemma {:induction false} PiecesShowText<T>(text: seq<T>, ranges: seq<Span>, cursor: nat)
    requires Fits(text, ranges, cursor)
    ensures cursor <= |text| && Shown(PiecesFrom(text, ranges, cursor)) == text[cursor..]
  {
    FitsInside(text, ranges, cursor);
    if ranges == [] {
      SliceInside(text, cursor, |text|);
    } else {
      var r := ranges[0];
      FitsInside(text, ranges[1..], r.end);
      PiecesShowText(text, ranges[1..], r.end);
      SliceInside(text, cursor, r.start);
      SliceInside(text, r.start, r.end);
    }
  }

  /** The marks are exactly the spans, one mark to a span and in order. */
  lemma {:induction false} MarksAreSpans<T>(text: seq<T>, ranges: seq<Span>, cursor: nat, k: nat)
    requires Fits(text, ranges, cursor) && k < |ranges|
    ensures |PiecesFrom(text, ranges, cursor)| == 2 * |ranges| + 1
    ensures ranges[k].start <= ranges[k].end <= |text|
    ensures PiecesFrom(text, ranges, cursor)[2 * k + 1] == Mark(text[ranges[k].start..ranges[k].end])
    decreases |ranges|
  {
    var r, rest := ranges[0], ranges[1..];
    FitsInside(text, rest, r.end);
    PieceCount(text, ranges, cursor);
    PieceCount(text, rest, r.end);
    if k > 0 {
      MarksAreSpans(text, rest, r.end, k - 1);
      AfterTwo(Plain(JsSlice(text, cursor, r.start)), Mark(JsSlice(text, r.start, r.end)),
               PiecesFrom(text, rest, r.end), 2 * k - 1);
    } else {
      SliceInside(text, r.start, r.end);
    }
  }

  lemma {:induction false} AfterTwo<T>(p: T, q: T, s: seq<T>, i: nat)
    requires i < |s|
    ensures ([p, q] + s)[i + 2] == s[i]
  {
  }

  lemma {:induction false} PieceCount<T>(text: seq<T>, ranges: seq<Span>, cursor: nat)
    ensures |PiecesFrom(text, ranges, cursor)| == 2 * |ranges| + 1
  {
    if ranges != [] {
      PieceCount(text, ranges[1..], ranges[0].end);
    }
  }

  // ----- code points and code units ---------------------------------------

  predicate Astral(c: char) {
    0x10000 <= c as int
  }

  /** The UTF-16 code units of one code point. */
  function Units(c: char): (u: seq<nat>)
    ensures |u| == if Astral(c) then 2 else 1
  {
    var n := c as int;
    if n < 0x10000 then [n]
    else [0xD800 + (n - 0x10000) / 0x400, 0xDC00 + (n - 0x10000) % 0x400]
  }

  /** One unit stands for itself, and two are a surrogate pair of the code point. */
  lemma {:induction false} UnitsAreUtf16(c: char)
    ensures !Astral(c) ==> Units(c) == [c as int]
    ensures Astral(c) ==>
      var high, low := Units(c)[0], Units(c)[1];
      && 0xD800 <= high < 0xDC00 && 0xDC00 <= low < 0xE000
      && c as int == 0x10000 + 0x400 * (high - 0xD800) + (low - 0xDC00)
  {
  }

  function Utf16(s: string): seq<nat> {
    if s == [] then [] else Utf16(s[..|s| - 1]) + Units(s[|s| - 1])
  }

  /** How many units precede code point i of s. */
  function UnitOffset(s: string, i: nat): nat
    requires i <= |s|
  {
    |Utf16(s[..i])|
  }

  predicate HasAstral(s: string) {
    exists i :: 0 <= i < |s| && Astral(s[i])
  }

  lemma {:induction false} AstralPush(t: string, c: char)
    ensures HasAstral(t + [c]) <==> HasAstral(t) || Astral(c)
  {
    var s := t + [c];
    if HasAstral(t) {
      var i :| 0 <= i < |t| && Astral(t[i]);
      assert s[i] == t[i];
    }
    if Astral(c) {
      assert s[|t|] == c;
    }
  }

  lemma {:induction false} UnitsAtLeast(s: string)
    ensures |s| <= |Utf16(s)|
    ensures |s| == |Utf16(s)| <==> !HasAstral(s)
  {
    if s != [] {
      var t, c := s[..|s| - 1], s[|s| - 1];
      UnitsAtLeast(t);
      AstralPush(t, c);
      assert s == t + [c];
    }
  }

  lemma {:induction false} PrefixUnits(s: string, i: nat, j: nat)
    requires i <= j <= |s|
    ensures UnitOffset(s, i) + (j - i) <= UnitOffset(s, j)
  {
    if i < j {
      PrefixUnits(s, i, j - 1);
      assert s[..j][..j - 1] == s[..j - 1];
    }
  }

  lemma {:induction false} Utf16Adds(a: string, b: string)
    ensures Utf16(a + b) == Utf16(a) + Utf16(b)
  {
    if b == [] {
      NothingAdded(a);
      NothingAdded(Utf16(a));
    } else {
      var most, last := b[..|b| - 1], b[|b| - 1];
      Utf16Adds(a, most);
      assert (a + b)[..|a + b| - 1] == a + most;
      Regroup(Utf16(a), Utf16(most), Units(last));
    }
  }

  /** The units of a slice lie between the offsets of its ends. */
  lemma {:induction false} UnitsOfSlice(s: string, a: nat, b: nat)
    requires a <= b <= |s|
    ensures UnitOffset(s, a) <= UnitOffset(s, b) <= |Utf16(s)|
    ensures Utf16(s)[UnitOffset(s, a)..UnitOffset(s, b)] == Utf16(s[a..b])
  {
    assert s == s[..b] + s[b..];
    assert s[..b] == s[..a] + s[a..b];
    Utf16Adds(s[..b], s[b..]);
    Utf16Adds(s[..a], s[a..b]);
  }

  // ----- the units that are marked and the units that are meant -----------

  /** Where the k-th mark lies on the page: after everything the pieces before it show. */
  function Drawn<T>(pieces: seq<Piece<T>>, k: nat): Span
    requires 2 * k + 1 < |pieces|
  {
    var start := |Shown(pieces[..2 * k + 1])|;
    Span(start, start + |pieces[2 * k + 1].units|)
  }

  /** The code units that a range of code points stands for. */
  function Meant(s: string, r: Span): Span
    requires r.start <= r.end <= |s|
  {
    Span(UnitOffset(s, r.start), UnitOffset(s, r.end))
  }

  lemma {:induction false} ShownOfThree<T>(p: Piece<T>, q: Piece<T>, rest: seq<Piece<T>>)
    ensures Shown([p, q] + rest) == p.units + q.units + Shown(rest)
  {
    assert ([p, q] + rest)[1..] == [q] + rest;
    assert ([q] + rest)[1..] == rest;
    Regroup(p.units, q.units, Shown(rest));
  }

  lemma {:induction false} MarkStartsAt<T>(text: seq<T>, ranges: seq<Span>, cursor: nat, k: nat)
    requires Fits(text, ranges, cursor) && k < |ranges|
    ensures |PiecesFrom(text, ranges, cursor)| == 2 * |ranges| + 1
    ensures cursor + |Shown(PiecesFrom(text, ranges, cursor)[..2 * k + 1])| == ranges[k].start
    decreases |ranges|
  {
    var r, rest := ranges[0], ranges[1..];
    var pieces, tail := PiecesFrom(text, ranges, cursor), PiecesFrom(text, rest, r.end);
    PieceCount(text, ranges, cursor);
    PieceCount(text, rest, r.end);
    FitsInside(text, rest, r.end);
    SliceInside(text, cursor, r.start);
    SliceInside(text, r.start, r.end);
    if k > 0 {
      MarkStartsAt(text, rest, r.end, k - 1);
      var skipped := [pieces[0], pieces[1]];
      assert pieces == skipped + tail;
      assert pieces[..2 * k + 1] == skipped + tail[..2 * (k - 1) + 1];
      ShownOfThree(pieces[0], pieces[1], tail[..2 * (k - 1) + 1]);
    } else {
      assert pieces[..1] == [pieces[0]];
      assert [pieces[0]][1..] == [];
    }
  }

  lemma {:induction false} MarkIsDrawnOnItsRange<T>(text: seq<T>, ranges: seq<Span>, k: nat)
    requires Fits(text, ranges, 0) && k < |ranges|
    ensures |PiecesFrom(text, ranges, 0)| == 2 * |ranges| + 1
    ensures ranges[k].start <= ranges[k].end <= |text|
    ensures Drawn(PiecesFrom(text, ranges, 0), k) == ranges[k]
  {
    MarksAreSpans(text, ranges, 0, k);
    MarkStartsAt(text, ranges, 0, k);
  }

  lemma {:induction false} OffsetsAgreeIff(s: string, a: nat, b: nat)
    requires a <= b <= |s|
    ensures (UnitOffset(s, a) == a && UnitOffset(s, b) == b) <==> !HasAstral(s[..b])
  {
    UnitsAtLeast(s[..b]);
    UnitsAtLeast(s[..a]);
    PrefixUnits(s, a, b);
  }

  /**
   The k-th mark the browser draws covers the code units its range stands for exactly when
   no character before the end of the range lies outside the basic multilingual plane; and
   then it shows the characters of the range.
   */
  lemma {:induction false} MarkIsExactIff(s: string, ranges: seq<Span>, k: nat)
    requires Fits(s, ranges, 0) && k < |ranges|
    ensures |PiecesFrom(Utf16(s), ranges, 0)| == 2 * |ranges| + 1
    ensures ranges[k].start <= ranges[k].end <= |s|
    ensures var r, pieces := ranges[k], PiecesFrom(Utf16(s), ranges, 0);
      && (Drawn(pieces, k) == Meant(s, r) <==> !HasAstral(s[..r.end]))
      && (!HasAstral(s[..r.end]) ==> pieces[2 * k + 1] == Mark(Utf16(s[r.start..r.end])))
  {
    MarksAreSpans(s, ranges, 0, k);
    var r := ranges[k];
    ServerRangesFit(s, ranges, 0);
    MarkIsDrawnOnItsRange(Utf16(s), ranges, k);
    MarksAreSpans(Utf16(s), ranges, 0, k);
    OffsetsAgreeIff(s, r.start, r.end);
    UnitsOfSlice(s, r.start, r.end);
  }

  /** Server ranges always fit the browser's longer string, so the paragraph is never damaged. */
  lemma {:induction false} ServerRangesFit(s: string, ranges: seq<Span>, cursor: nat)
    requires Fits(s, ranges, cursor)
    ensures Fits(Utf16(s), ranges, cursor)
  {
    UnitsAtLeast(s);
    if ranges != [] {
      ServerRangesFit(s, ranges[1..], ranges[0].end);
    }
  }

  /** Whatever the text, the browser's pieces put the paragraph back together. */
  lemma {:induction false} ParagraphSurvivesMarking(s: string, ranges: seq<Span>)
    requires Fits(s, ranges, 0)
    ensures Shown(PiecesFrom(Utf16(s), ranges, 0)) == Utf16(s)
  {
    ServerRangesFit(s, ranges, 0);
    PiecesShowText(Utf16(s), ranges, 0);
  }

  lemma {:induction false} EmojiUnits(rest: string)
    ensures Utf16("\U{1F642}" + rest) == [0xD83D, 0xDE42] + Utf16(rest)
  {
    Utf16Adds("\U{1F642}", rest);
    assert "\U{1F642}"[..0] == "";
  }

  lemma {:induction false} LetterUnits(rest: string)
    ensures Utf16("a" + rest) == [97] + Utf16(rest)
  {
    Utf16Adds("a", rest);
    assert "a"[..0] == "";
  }

  /** A paragraph with an emoji before the chunk shows the wrong characters marked. */
  lemma {:induction false} EmojiShiftsTheMark()
    ensures var s, range := "\U{1F642}ab", Span(1, 2);
      && Fits(s, [range], 0)
      && |PiecesFrom(Utf16(s), [range], 0)| == 3
      && Drawn(PiecesFrom(Utf16(s), [range], 0), 0) != Meant(s, range)
      && PiecesFrom(Utf16(s), [range], 0)[1] == Mark([0xDE42])
      && Utf16(s[1..2]) == [97]
  {
    var s, range := "\U{1F642}ab", Span(1, 2);
    assert [range][1..] == [];
    assert Fits(s, [], 2);
    MarkIsExactIff(s, [range], 0);
    assert Astral(s[..2][0]);
    assert s == "\U{1F642}" + "ab";
    EmojiUnits("ab");
    ServerRangesFit(s, [range], 0);
    MarksAreSpans(Utf16(s), [range], 0, 0);
    LetterUnits("");
    assert s[1..2] == "a" == "a" + "";
  }

  /** A shifted mark may read right all the same: in a row of equal letters nobody sees the shift. */
  lemma {:induction false} ShiftMayGoUnseen()
    ensures var s := "\U{1F642}aaa";
      && HasAstral(s[..4])
      && JsSlice(Utf16(s), 3, 4) == Utf16(s[3..4])
  {
    var s := "\U{1F642}aaa";
    assert Astral(s[..4][0]);
    assert s == "\U{1F642}" + "aaa";
    EmojiUnits("aaa");
    assert "aaa" == "a" + "aa" && "aa" == "a" + "a" && "a" == "a" + "";
    LetterUnits("aa");
    LetterUnits("a");
    LetterUnits("");
    assert s[3..4] == "a";
  }

  // ----- the marks of a chunk in the browser ------------------------------

  function SpanOf(derived: seq<C.Paragraph>, r: C.Range): Span
    requires C.ValidRange(derived, r)
  {
    Span(r.start, r.end)
  }

  /** highlight.ranges.filter(range => range.paragraph_index === index) */
  function SpansIn(derived: seq<C.Paragraph>, ranges: seq<C.Range>, index: nat): seq<Span>
    requires C.ValidRanges(derived, ranges)
  {
    if ranges == [] then []
    else
      var last := ranges[|ranges| - 1];
      SpansIn(derived, ranges[..|ranges| - 1], index)
      + if last.paragraph == index then [SpanOf(derived, last)] else []
  }

  /** What markedText makes of the n-th paragraph. */
  function PiecesOf(derived: seq<C.Paragraph>, ranges: seq<C.Range>, n: nat): seq<Piece<nat>>
    requires C.ValidRanges(derived, ranges) && 1 <= n <= |derived|
  {
    PiecesFrom(Utf16(derived[n - 1].text), SpansIn(derived, ranges, derived[n - 1].index), 0)
  }

  function Marked<T>(pieces: seq<Piece<T>>): seq<T> {
    if pieces == [] then []
    else (if pieces[0].Mark? then pieces[0].units else []) + Marked(pieces[1..])
  }

  /** What is marked in the n-th paragraph. */
  function MarkedIn(derived: seq<C.Paragraph>, ranges: seq<C.Range>): nat -> seq<nat>
    requires C.ValidRanges(derived, ranges)
  {
    n => if 1 <= n <= |derived| then Marked(PiecesOf(derived, ranges, n)) else []
  }

  /** The parts 1 to n, from top to bottom. */
  function Joined<T>(part: nat -> seq<T>, n: nat): seq<T> {
    if n == 0 then [] else Joined(part, n - 1) + part(n)
  }

  /** Everything that is marked on the page. */
  function MarkedOnPage(derived: seq<C.Paragraph>, ranges: seq<C.Range>): seq<nat>
    requires C.ValidRanges(derived, ranges)
  {
    Joined(MarkedIn(derived, ranges), |derived|)
  }

  lemma {:induction false} JoinedSame<T>(f: nat -> seq<T>, g: nat -> seq<T>, n: nat)
    requires forall m :: 1 <= m <= n ==> f(m) == g(m)
    ensures Joined(f, n) == Joined(g, n)
  {
    if n > 0 {
      JoinedSame(f, g, n - 1);
    }
  }

  lemma {:induction false} JoinedStops<T>(part: nat -> seq<T>, k: nat, n: nat)
    requires k <= n && forall m :: k < m <= n ==> part(m) == []
    ensures Joined(part, n) == Joined(part, k)
  {
    if k < n {
      JoinedStops(part, k, n - 1);
      NothingAdded(Joined(part, n - 1));
    }
  }

  lemma {:induction false} NoSpansBeyond(derived: seq<C.Paragraph>, ranges: seq<C.Range>, index: nat)
    requires C.ValidRanges(derived, ranges) && C.LastParagraph(ranges) < index
    ensures SpansIn(derived, ranges, index) == []
  {
    if ranges != [] {
      NoSpansBeyond(derived, ranges[..|ranges| - 1], index);
    }
  }

  lemma {:induction false} LastSpan(derived: seq<C.Paragraph>, ranges: seq<C.Range>)
    requires C.ValidRanges(derived, ranges) && ranges != []
    ensures var r := ranges[|ranges| - 1]; SpansIn(derived, ranges, r.paragraph) == [SpanOf(derived, r)]
  {
    NoSpansBeyond(derived, ranges[..|ranges| - 1], ranges[|ranges| - 1].paragraph);
  }

  /** A paragraph has at most one range, so its range is its first mark. */
  lemma {:induction false} OneSpan(derived: seq<C.Paragraph>, ranges: seq<C.Range>, i: nat)
    requires C.ValidRanges(derived, ranges) && i < |ranges|
    ensures C.ValidRange(derived, ranges[i])
    ensures SpansIn(derived, ranges, ranges[i].paragraph) == [SpanOf(derived, ranges[i])]
  {
    if i == |ranges| - 1 {
      LastSpan(derived, ranges);
    } else {
      OneSpan(derived, ranges[..|ranges| - 1], i);
      C.RangesAreDisjoint(derived, ranges, i, |ranges| - 1);
    }
  }

  lemma {:induction false} OneSpanFits(text: string, r: Span)
    requires r.start <= r.end <= |text|
    ensures Fits(text, [r], 0)
  {
    assert [r][1..] == [];
    assert Fits(text, [], r.end);
  }

  lemma {:induction false} OneMark(text: string, r: Span)
    requires r.start <= r.end <= |text| && !HasAstral(text[..r.end])
    ensures Marked(PiecesFrom(Utf16(text), [r], 0)) == Utf16(text[r.start..r.end])
  {
    OneSpanFits(text, r);
    MarkIsExactIff(text, [r], 0);
    ThreePieces(Utf16(text), r);
  }

  lemma {:induction false} ThreePieces<T>(text: seq<T>, r: Span)
    ensures Marked(PiecesFrom(text, [r], 0)) == JsSlice(text, r.start, r.end)
    ensures |PiecesFrom(text, [r], 0)| == 3
    ensures PiecesFrom(text, [r], 0)[1] == Mark(JsSlice(text, r.start, r.end))
  {
    var p, q := Plain(JsSlice(text, 0, r.start)), Plain(JsSlice(text, r.end, |text|));
    var m := Mark(JsSlice(text, r.start, r.end));
    assert [r][1..] == [];
    assert PiecesFrom(text, [r], 0) == [p, m, q];
    assert [p, m, q][1..] == [m, q] && [m, q][1..] == [q] && [q][1..] == [];
    assert Marked([q]) == [];
    NothingAdded(m.units);
    assert Marked([m, q]) == m.units + Marked([q]);
  }

  lemma {:induction false} NoMark(text: string)
    ensures Marked(PiecesFrom(Utf16(text), [], 0)) == []
  {
    assert PiecesFrom(Utf16(text), [], 0)[1..] == [];
  }

  /** A range does not show in the paragraphs above it. */
  lemma {:induction false} PiecesAbove(derived: seq<C.Paragraph>, ranges: seq<C.Range>, n: nat)
    requires C.ValidRanges(derived, ranges) && C.Numbered(derived) && ranges != []
    requires 1 <= n < ranges[|ranges| - 1].paragraph && n <= |derived|
    ensures PiecesOf(derived, ranges, n) == PiecesOf(derived, ranges[..|ranges| - 1], n)
  {
    assert derived[n - 1].index == n;
    NothingAdded(SpansIn(derived, ranges[..|ranges| - 1], n));
  }

  /** No character before the end of the range lies outside the basic multilingual plane. */
  predicate PlainUpTo(derived: seq<C.Paragraph>, r: C.Range)
    requires C.ValidRange(derived, r)
  {
    !HasAstral(derived[r.paragraph - 1].text[..r.end])
  }

  ghost predicate AllPlain(derived: seq<C.Paragraph>, ranges: seq<C.Range>)
    requires C.ValidRanges(derived, ranges)
  {
    ranges == []
    || (AllPlain(derived, ranges[..|ranges| - 1]) && PlainUpTo(derived, ranges[|ranges| - 1]))
  }

  /** Parts that agree up to n, but for the n-th, after k nothing but the n-th. */
  lemma {:induction false} JoinedLast<T>(f: nat -> seq<T>, g: nat -> seq<T>, k: nat, n: nat)
    requires k < n
    requires forall m :: 1 <= m < n ==> f(m) == g(m)
    requires forall m :: k < m < n ==> g(m) == []
    ensures Joined(f, n) == Joined(g, k) + f(n)
  {
    JoinedSame(f, g, n - 1);
    JoinedStops(g, k, n - 1);
  }

  /** Above its last range a page shows what it shows without that range. */
  lemma {:induction false} MarkedAbove(derived: seq<C.Paragraph>, ranges: seq<C.Range>)
    requires C.ValidRanges(derived, ranges) && C.Numbered(derived) && ranges != []
    ensures var before, n := ranges[..|ranges| - 1], ranges[|ranges| - 1].paragraph;
      && (forall m :: 1 <= m < n ==> MarkedIn(derived, ranges)(m) == MarkedIn(derived, before)(m))
      && (forall m :: C.LastParagraph(before) < m < n ==> MarkedIn(derived, before)(m) == [])
  {
    var before, n := ranges[..|ranges| - 1], ranges[|ranges| - 1].paragraph;
    forall m | 1 <= m < n
      ensures MarkedIn(derived, ranges)(m) == MarkedIn(derived, before)(m)
    {
      PiecesAbove(derived, ranges, m);
    }
    forall m | C.LastParagraph(before) < m < n
      ensures MarkedIn(derived, before)(m) == []
    {
      NothingMarkedBelow(derived, before, m);
    }
  }

  lemma {:induction false} JoinedSpells(derived: seq<C.Paragraph>, ranges: seq<C.Range>)
    requires C.ValidRanges(derived, ranges) && C.Numbered(derived) && AllPlain(derived, ranges)
    ensures Joined(MarkedIn(derived, ranges), C.LastParagraph(ranges)) == Utf16(C.Spelled(derived, ranges))
    decreases |ranges|
  {
    if ranges != [] {
      var before, r := ranges[..|ranges| - 1], ranges[|ranges| - 1];
      JoinedSpells(derived, before);
      MarkedAbove(derived, ranges);
      JoinedLast(MarkedIn(derived, ranges), MarkedIn(derived, before), C.LastParagraph(before), r.paragraph);
      LastMark(derived, ranges);
      Utf16Adds(C.Spelled(derived, before), C.MarkOf(derived, r));
    }
  }

  lemma {:induction false} PageSpells(derived: seq<C.Paragraph>, ranges: seq<C.Range>)
    requires C.ValidRanges(derived, ranges) && C.Numbered(derived) && AllPlain(derived, ranges)
    ensures MarkedOnPage(derived, ranges) == Utf16(C.Spelled(derived, ranges))
  {
    JoinedSpells(derived, ranges);
    var last := C.LastParagraph(ranges);
    forall m | last < m <= |derived|
      ensures MarkedIn(derived, ranges)(m) == []
    {
      NothingMarkedBelow(derived, ranges, m);
    }
    JoinedStops(MarkedIn(derived, ranges), last, |derived|);
  }

  lemma {:induction false} NothingMarkedBelow(derived: seq<C.Paragraph>, ranges: seq<C.Range>, n: nat)
    requires C.ValidRanges(derived, ranges) && C.Numbered(derived) && C.LastParagraph(ranges) < n <= |derived|
    ensures Marked(PiecesOf(derived, ranges, n)) == []
  {
    assert derived[n - 1].index == n;
    NoSpansBeyond(derived, ranges, n);
    NoMark(derived[n - 1].text);
  }

  lemma {:induction false} LastMark(derived: seq<C.Paragraph>, ranges: seq<C.Range>)
    requires C.ValidRanges(derived, ranges) && C.Numbered(derived) && ranges != []
    requires PlainUpTo(derived, ranges[|ranges| - 1])
    ensures var r := ranges[|ranges| - 1];
      Marked(PiecesOf(derived, ranges, r.paragraph)) == Utf16(C.MarkOf(derived, r))
  {
    var r := ranges[|ranges| - 1];
    assert derived[r.paragraph - 1].index == r.paragraph;
    LastSpan(derived, ranges);
    OneMark(derived[r.paragraph - 1].text, SpanOf(derived, r));
  }

  /**
   Of the marks the browser draws for a highlight, the one of the i-th range covers what it
   stands for exactly when the range is plain up to its end; and the paragraph is intact.
   */
  lemma {:induction false} RangeIsExactIff(derived: seq<C.Paragraph>, ranges: seq<C.Range>, i: nat)
    requires C.ValidRanges(derived, ranges) && C.Numbered(derived) && i < |ranges|
    ensures C.ValidRange(derived, ranges[i])
    ensures var r := ranges[i];
      var text, pieces := derived[r.paragraph - 1].text, PiecesOf(derived, ranges, r.paragraph);
      && |pieces| == 3
      && (Drawn(pieces, 0) == Meant(text, SpanOf(derived, r)) <==> PlainUpTo(derived, r))
      && Shown(pieces) == Utf16(text)
  {
    OneSpan(derived, ranges, i);
    var r := ranges[i];
    var text, span := derived[r.paragraph - 1].text, SpanOf(derived, r);
    assert derived[r.paragraph - 1].index == r.paragraph;
    OneSpanFits(text, span);
    MarkIsExactIff(text, [span], 0);
    ParagraphSurvivesMarking(text, [span]);
  }

  /**
   From the filing to the screen: every chunk of a present section is highlighted, and when
   the ranges are plain up to their ends the browser's marks, read from top to bottom, are
   the chunk's text without its line breaks.
   */
  lemma {:induction false} ScreenSpellsChunk(
    narrative: string, headings: seq<E.Heading>, minBody: nat, absence: string -> bool, section: E.Section,
    doc: Document, size: nat, overlap: nat, c: Chunk)
    requires E.AllInBounds(narrative, headings) && 0 < minBody
    requires section == E.Extracted(narrative, headings, minBody, absence) && section.Present?
    requires overlap < size && Halts(section.text, size, overlap)
    requires c in Chunks(doc, section.text, size, overlap, section.start)
    ensures C.HighlightOf(c.start, c.end, section.start, C.ParagraphsFrom(section.text, 0, 0)).Some?
    ensures var derived := C.ParagraphsFrom(section.text, 0, 0);
      var ranges := C.HighlightOf(c.start, c.end, section.start, derived).value.ranges;
      && C.ValidRanges(derived, ranges) && C.Numbered(derived)
      && (AllPlain(derived, ranges) ==>
            MarkedOnPage(derived, ranges) == Utf16(C.WithoutBreaks(c.text)))
  {
    E.SectionChunksResolve(narrative, headings, minBody, absence, section, doc, size, overlap, c);
    C.AllNumbered(section.text);
    MarksOnScreen(C.ParagraphsFrom(section.text, 0, 0), section.start, c);
  }

  lemma {:induction false} MarksOnScreen(derived: seq<C.Paragraph>, sectionStart: int, c: Chunk)
    requires C.Numbered(derived) && C.ReaderMarks(derived, sectionStart, c).Some?
    ensures var h := C.HighlightOf(c.start, c.end, sectionStart, derived);
      && h.Some?
      && C.ValidRanges(derived, h.value.ranges)
      && (AllPlain(derived, h.value.ranges) ==>
            MarkedOnPage(derived, h.value.ranges)
            == Utf16(C.ReaderMarks(derived, sectionStart, c).value))
  {
    var ranges := C.HighlightOf(c.start, c.end, sectionStart, derived).value.ranges;
    if AllPlain(derived, ranges) {
      PageSpells(derived, ranges);
    }
  }
}
