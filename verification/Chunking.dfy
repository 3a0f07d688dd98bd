/**
 The chunker of domain/filings.py: overlapping windows over one section's text,
 pulled back to a newline where there is one in the second half of the window.

 Positions are code points, as in Python. A hash is modelled as an injective
 constructor, so a chunk's identity is the tuple that is hashed.
 */
module Chunking {
  import opened Wrappers
  import opened Iteration
  import opened Sequences

  // ----- str.strip -------------------------------------------------------

  /** The ranges of the characters str.strip removes. */
  const SPACES: seq<(char, char)> := [
    ('\U{3000}', '\U{3000}'), ('\U{205F}', '\U{205F}'), ('\U{202F}', '\U{202F}'), ('\U{2028}', '\U{2029}'),
    ('\U{2000}', '\U{200A}'), ('\U{1680}', '\U{1680}'), ('\U{A0}', '\U{A0}'), ('\U{85}', '\U{85}'),
    ('\U{1C}', ' '), ('\t', '\r')]

  /** c lies in one of the first n ranges. */
  predicate InRanges(c: char, ranges: seq<(char, char)>, n: nat)
    requires n <= |ranges|
  {
    n > 0 && (ranges[n - 1].0 <= c <= ranges[n - 1].1 || InRanges(c, ranges, n - 1))
  }

  predicate IsSpace(c: char) {
    InRanges(c, SPACES, |SPACES|)
  }

  /** The code points that str.strip removes, one by one. */
  lemma {:induction false} SpacesAre(c: char)
    ensures IsSpace(c) <==>
      c as int in {0x09, 0x0A, 0x0B, 0x0C, 0x0D, 0x1C, 0x1D, 0x1E, 0x1F, 0x20, 0x85, 0xA0, 0x1680,
                   0x2000, 0x2001, 0x2002, 0x2003, 0x2004, 0x2005, 0x2006, 0x2007, 0x2008, 0x2009, 0x200A,
                   0x2028, 0x2029, 0x202F, 0x205F, 0x3000}
  {
    assert !InRanges(c, SPACES, 0);
    assert InRanges(c, SPACES, 1) <==> c as int == 0x3000;
    assert InRanges(c, SPACES, 2) <==> InRanges(c, SPACES, 1) || c as int == 0x205F;
    assert InRanges(c, SPACES, 3) <==> InRanges(c, SPACES, 2) || c as int == 0x202F;
    assert InRanges(c, SPACES, 4) <==> InRanges(c, SPACES, 3) || c as int in {0x2028, 0x2029};
    assert InRanges(c, SPACES, 5) <==> InRanges(c, SPACES, 4) || 0x2000 <= c as int <= 0x200A;
    assert InRanges(c, SPACES, 6) <==> InRanges(c, SPACES, 5) || c as int == 0x1680;
    assert InRanges(c, SPACES, 7) <==> InRanges(c, SPACES, 6) || c as int == 0xA0;
    assert InRanges(c, SPACES, 8) <==> InRanges(c, SPACES, 7) || c as int == 0x85;
    assert InRanges(c, SPACES, 9) <==> InRanges(c, SPACES, 8) || 0x1C <= c as int <= 0x20;
    assert InRanges(c, SPACES, 10) <==> InRanges(c, SPACES, 9) || 9 <= c as int <= 13;
  }

  /** The first position from i on that holds a visible character. */
  function FirstVisible(s: string, i: nat): (n: nat)
    requires i <= |s|
    ensures i <= n <= |s| && (n < |s| ==> !IsSpace(s[n]))
    decreases |s| - i
  {
    if i == |s| || !IsSpace(s[i]) then i else FirstVisible(s, i + 1)
  }

  /** The end of the last visible character among the first n, or 0. */
  function LastVisible(s: string, n: nat): (m: nat)
    requires n <= |s|
    ensures m <= n && (0 < m ==> !IsSpace(s[m - 1]))
  {
    if n == 0 || !IsSpace(s[n - 1]) then n else LastVisible(s, n - 1)
  }

  /** len(s) - len(s.lstrip()) */
  function LeadingSpaces(s: string): (n: nat)
    ensures n <= |s|
  {
    FirstVisible(s, 0)
  }

  /** len(s.rstrip()) */
  function TrimmedEnd(s: string): (n: nat)
    ensures n <= |s|
  {
    LastVisible(s, |s|)
  }

  /** A nonempty string that strip leaves alone. */
  predicate Trimmed(s: string) {
    s != [] && !IsSpace(s[0]) && !IsSpace(s[|s| - 1])
  }

  lemma {:induction false} FirstVisibleIsFirst(s: string, i: nat, j: nat)
    requires i <= j < |s| && !IsSpace(s[j])
    ensures FirstVisible(s, i) <= j
    decreases j - i
  {
    if i < j && IsSpace(s[i]) {
      FirstVisibleIsFirst(s, i + 1, j);
    }
  }

  lemma {:induction false} LastVisibleIsLast(s: string, n: nat, j: nat)
    requires j < n <= |s| && !IsSpace(s[j])
    ensures j < LastVisible(s, n)
  {
    if j < n - 1 && IsSpace(s[n - 1]) {
      LastVisibleIsLast(s, n - 1, j);
    }
  }

  /** Stripping never takes a visible character. */
  lemma {:induction false} StripKeepsVisible(s: string, i: nat)
    requires i < |s| && !IsSpace(s[i])
    ensures LeadingSpaces(s) <= i < TrimmedEnd(s)
  {
    FirstVisibleIsFirst(s, 0, i);
    LastVisibleIsLast(s, |s|, i);
  }

  /** What is left of a stripped slice is a slice, and cannot be stripped further. */
  lemma {:induction false} StrippedSlice(text: string, a: nat, b: nat)
    requires a <= b <= |text| && LeadingSpaces(text[a..b]) < TrimmedEnd(text[a..b])
    ensures var left, right := LeadingSpaces(text[a..b]), TrimmedEnd(text[a..b]);
      && text[a..b][left..right] == text[a + left..a + right]
      && Trimmed(text[a..b][left..right])
  {
    var raw := text[a..b];
    var left, right := LeadingSpaces(raw), TrimmedEnd(raw);
    SliceOfSlice(text, a, b, left, right);
    assert raw[left..right][0] == raw[left] && raw[left..right][right - left - 1] == raw[right - 1];
  }

  // ----- the sequence of windows ------------------------------------------

  /** text.rfind("\n", lo, hi) */
  function LastNewline(text: string, lo: int, hi: int): (p: int)
    requires hi <= |text|
    ensures p == -1 || (0 <= p && lo <= p < hi && text[p] == '\n')
    decreases hi
  {
    if hi <= lo || hi <= 0 then -1
    else if text[hi - 1] == '\n' then hi - 1
    else LastNewline(text, lo, hi - 1)
  }

  lemma {:induction false} NoLaterNewline(text: string, lo: int, hi: int, i: nat)
    requires lo <= i < hi <= |text| && LastNewline(text, lo, hi) < i
    ensures text[i] != '\n'
    decreases hi
  {
    if i < hi - 1 {
      NoLaterNewline(text, lo, hi - 1, i);
    }
  }

  lemma {:induction false} LastNewlineIs(text: string, lo: int, hi: int, p: nat)
    requires lo <= p < hi <= |text| && text[p] == '\n'
    requires forall i :: p < i < hi ==> text[i] != '\n'
    ensures LastNewline(text, lo, hi) == p
    decreases hi
  {
    if p < hi - 1 {
      LastNewlineIs(text, lo, hi - 1, p);
    }
  }

  /**
   The value of end that one iteration starting at start settles on. The loop only
   reaches a negative start after a window that stalls, and there rfind succeeds, so
   its -1 never passes for a split.
   */
  function WindowEnd(text: string, size: nat, start: int): (e: int)
    ensures e <= |text|
    ensures 0 < size && start < |text| ==> start < e
    ensures e <= start + size
    ensures e < |text| ==> e == start + size || (start + size / 2 <= e && 0 <= e && text[e] == '\n')
  {
    var e := if start + size < |text| then start + size else |text|;
    if e < |text| then
      var split := LastNewline(text, start + size / 2, e);
      if 0 <= split && split > start then split else e
    else
      e
  }

  /** The start of the window after the one at s, or None when that one is the last. */
  function NextStart(text: string, size: nat, overlap: nat, s: int): (n: Option<int>)
    ensures n.Some? ==> n.value < |text|
  {
    var e := WindowEnd(text, size, s);
    if e == |text| then None else Some(e - overlap)
  }

  function Step(text: string, size: nat, overlap: nat): int -> Option<int> {
    s => NextStart(text, size, overlap, s)
  }

  function FirstStart(text: string): Option<int> {
    if text == [] then None else Some(0)
  }

  /** The value of start at the k-th test of the loop, or None once the loop has ended. */
  ghost function StartAt(text: string, size: nat, overlap: nat, k: nat): Option<int> {
    Iterate(Step(text, size, overlap), FirstStart(text), k)
  }

  ghost predicate Halts(text: string, size: nat, overlap: nat) {
    Ends(Step(text, size, overlap), FirstStart(text))
  }

  /** The window at s is the last one or leaves start further on. */
  predicate MovesOn(text: string, size: nat, overlap: nat, s: int) {
    var e := WindowEnd(text, size, s);
    e == |text| || s < e - overlap
  }

  ghost predicate AdvancesAt(text: string, size: nat, overlap: nat, k: nat) {
    StartAt(text, size, overlap, k).Some? ==> MovesOn(text, size, overlap, StartAt(text, size, overlap, k).value)
  }

  /** Every window the loop reaches moves start forward. */
  ghost predicate Advances(text: string, size: nat, overlap: nat) {
    forall k: nat :: AdvancesAt(text, size, overlap, k)
  }

  // ----- termination ------------------------------------------------------

  /** A window that fails to advance is a fixed point: the loop repeats it for ever. */
  lemma {:induction false} StalledWindowRepeats(text: string, size: nat, overlap: nat, s: int)
    requires overlap < size && !MovesOn(text, size, overlap, s)
    ensures NextStart(text, size, overlap, s) == Some(WindowEnd(text, size, s) - overlap)
    ensures NextStart(text, size, overlap, WindowEnd(text, size, s) - overlap) == NextStart(text, size, overlap, s)
  {
    var e := WindowEnd(text, size, s);
    var s' := e - overlap;
    assert s' + size < |text|;
    forall i | e < i < s' + size
      ensures text[i] != '\n'
    {
      NoLaterNewline(text, s + size / 2, s + size, i);
    }
    LastNewlineIs(text, s' + size / 2, s' + size, e);
  }

  lemma {:induction false} StartInText(text: string, size: nat, overlap: nat, k: nat, s: int)
    requires StartAt(text, size, overlap, k) == Some(s)
    ensures s < |text|
  {
    if k > 0 {
      var t := StartAt(text, size, overlap, k - 1).value;
      assert StartAt(text, size, overlap, k) == Step(text, size, overlap)(t) == NextStart(text, size, overlap, t);
    }
  }

  /** Every advancing loop moves by at least one character per window. */
  lemma {:induction false} AdvancingStart(text: string, size: nat, overlap: nat, k: nat)
    requires Advances(text, size, overlap)
    requires StartAt(text, size, overlap, k).Some?
    ensures k <= StartAt(text, size, overlap, k).value
  {
    if k > 0 {
      AdvancingStart(text, size, overlap, k - 1);
      assert AdvancesAt(text, size, overlap, k - 1);
    }
  }

  lemma {:induction false} AdvancingHalts(text: string, size: nat, overlap: nat)
    requires Advances(text, size, overlap)
    ensures Halts(text, size, overlap)
  {
    if StartAt(text, size, overlap, |text|).Some? {
      AdvancingStart(text, size, overlap, |text|);
      StartInText(text, size, overlap, |text|, StartAt(text, size, overlap, |text|).value);
    }
    assert Iterate(Step(text, size, overlap), FirstStart(text), |text|).None?;
  }

  lemma {:induction false} StallingNeverHalts(text: string, size: nat, overlap: nat, k: nat)
    requires overlap < size && !AdvancesAt(text, size, overlap, k)
    ensures !Halts(text, size, overlap)
  {
    var s := StartAt(text, size, overlap, k).value;
    var t := WindowEnd(text, size, s) - overlap;
    StalledWindowRepeats(text, size, overlap, s);
    assert Step(text, size, overlap)(s) == Some(t) == Step(text, size, overlap)(t);
    FixedNeverEnds(Step(text, size, overlap), FirstStart(text), k, s, t);
  }

  /** For one text the loop ends exactly when no reached window stalls. */
  lemma {:induction false} HaltsIffAdvances(text: string, size: nat, overlap: nat)
    requires overlap < size
    ensures Halts(text, size, overlap) <==> Advances(text, size, overlap)
  {
    if Advances(text, size, overlap) {
      AdvancingHalts(text, size, overlap);
    } else {
      var k: nat :| !AdvancesAt(text, size, overlap, k);
      StallingNeverHalts(text, size, overlap, k);
    }
  }

  /** What the source's own guard, overlap < size, leaves open: the text that never ends. */
  function StallingText(size: nat): string {
    seq(size / 2, _ => 'x') + "\n" + seq(size, _ => 'x')
  }

  lemma {:induction false} StallingTextNeverEnds(size: nat, overlap: nat)
    requires size / 2 <= overlap < size && size != 1
    ensures !Halts(StallingText(size), size, overlap)
  {
    var text := StallingText(size);
    assert StartAt(text, size, overlap, 0) == Some(0);
    assert text[size / 2] == '\n';
    assert WindowEnd(text, size, 0) == size / 2 by {
      LastNewlineIs(text, size / 2, size, size / 2);
    }
    assert !AdvancesAt(text, size, overlap, 0);
    HaltsIffAdvances(text, size, overlap);
  }

  /** With overlap below half a window, start moves by at least the difference each time. */
  lemma {:induction false} StartLowerBound(text: string, size: nat, overlap: nat, k: nat)
    requires overlap < size / 2
    requires StartAt(text, size, overlap, k).Some?
    ensures k * (size / 2 - overlap) <= StartAt(text, size, overlap, k).value
  {
    if k > 0 {
      StartLowerBound(text, size, overlap, k - 1);
      assert k * (size / 2 - overlap) == (k - 1) * (size / 2 - overlap) + (size / 2 - overlap);
    }
  }

  /** The number of windows of a loop that ends. */
  ghost function WindowCount(text: string, size: nat, overlap: nat): nat
    requires Halts(text, size, overlap)
  {
    Count(Step(text, size, overlap), FirstStart(text))
  }

  /** The loop runs at most ceil(len(text) / (size/2 - overlap)) times. */
  lemma {:induction false} WindowBound(text: string, size: nat, overlap: nat, windows: nat)
    requires overlap < size / 2
    requires |text| <= windows * (size / 2 - overlap)
    ensures Halts(text, size, overlap) && WindowCount(text, size, overlap) <= windows
  {
    if StartAt(text, size, overlap, windows).Some? {
      StartLowerBound(text, size, overlap, windows);
    }
    assert StartAt(text, size, overlap, windows).None?;
  }

  lemma {:induction false} SingleCharacterMovesOn(text: string, size: nat, overlap: nat, k: nat)
    requires size == 1 && overlap == 0
    ensures AdvancesAt(text, size, overlap, k)
  {
    if StartAt(text, size, overlap, k).Some? {
      StartInText(text, size, overlap, k, StartAt(text, size, overlap, k).value);
    }
  }

  /** The exact settings under which the chunker ends on every text. */
  lemma {:induction false} HaltsOnEveryText(size: nat, overlap: nat)
    requires overlap < size
    ensures (forall text: string :: Halts(text, size, overlap)) <==> (overlap < size / 2 || size == 1)
  {
    if overlap < size / 2 {
      forall text: string
        ensures Halts(text, size, overlap)
      {
        assert |text| <= |text| * (size / 2 - overlap) by {
          MulAtLeast(|text|, size / 2 - overlap);
        }
        WindowBound(text, size, overlap, |text|);
      }
    } else if size == 1 {
      forall text: string
        ensures Halts(text, size, overlap)
      {
        forall k: nat
          ensures AdvancesAt(text, size, overlap, k)
        {
          SingleCharacterMovesOn(text, size, overlap, k);
        }
        HaltsIffAdvances(text, size, overlap);
      }
    } else {
      StallingTextNeverEnds(size, overlap);
    }
  }

  lemma {:induction false} MulAtLeast(a: nat, b: nat)
    requires b >= 1
    ensures a <= a * b
  {
  }

  // ----- chunks -----------------------------------------------------------

  datatype Document = Document(accession: string, item: string, version: string)
  datatype Identity = Identity(doc: Document, ordinal: nat, content: string)
  datatype Citation = Citation(accession: string, item: string, ordinal: nat)
  datatype Chunk = Chunk(id: Identity, ordinal: nat, text: string, start: int, end: int, citation: Citation)

  datatype ChunkError = OverlapNotSmallerThanSize

  /** The chunk one window contributes: none when the window is blank. */
  function Cut(doc: Document, text: string, base: int, s: int, e: int, ordinal: nat): seq<Chunk> {
    if 0 <= s <= e <= |text| then
      var raw := text[s..e];
      var left := LeadingSpaces(raw);
      var right := TrimmedEnd(raw);
      if left < right then
        var content := raw[left..right];
        [Chunk(Identity(doc, ordinal, content), ordinal, content, base + s + left, base + s + right,
               Citation(doc.accession, doc.item, ordinal))]
      else
        []
    else
      []
  }

  datatype Window = Window(start: int, end: int)

  /** The windows already processed when the loop is tested for the k-th time. */
  ghost function WindowsUpTo(text: string, size: nat, overlap: nat, k: nat): seq<Window> {
    if k == 0 then []
    else
      var before := WindowsUpTo(text, size, overlap, k - 1);
      match StartAt(text, size, overlap, k - 1)
      case None => before
      case Some(s) => before + [Window(s, WindowEnd(text, size, s))]
  }

  /** The windows of a loop that ends. */
  ghost function Windows(text: string, size: nat, overlap: nat): seq<Window>
    requires Halts(text, size, overlap)
  {
    WindowsUpTo(text, size, overlap, WindowCount(text, size, overlap))
  }

  ghost function ChunksOf(doc: Document, text: string, base: int, windows: seq<Window>): seq<Chunk> {
    if windows == [] then []
    else
      var before := ChunksOf(doc, text, base, windows[..|windows| - 1]);
      var last := windows[|windows| - 1];
      before + Cut(doc, text, base, last.start, last.end, |before|)
  }

  function Reach(windows: seq<Window>): int {
    if windows == [] then 0 else windows[|windows| - 1].end
  }

  /** Windows that fit the text, start at its beginning and leave no gap between them. */
  predicate Tiling(text: string, size: nat, windows: seq<Window>) {
    windows == [] ||
    var before := windows[..|windows| - 1];
    var last := windows[|windows| - 1];
    && Tiling(text, size, before)
    && 0 <= last.start <= last.end <= |text|
    && last.end - last.start <= size
    && last.start <= Reach(before)
  }

  /** How far the first k windows reach. */
  ghost function ReachAt(text: string, size: nat, overlap: nat, k: nat): int {
    if k == 0 then 0
    else if StartAt(text, size, overlap, k).None? then |text|
    else StartAt(text, size, overlap, k).value + overlap
  }

  lemma {:induction false} WindowsTile(text: string, size: nat, overlap: nat, k: nat)
    requires Advances(text, size, overlap)
    requires k > 0 ==> StartAt(text, size, overlap, k - 1).Some?
    ensures Tiling(text, size, WindowsUpTo(text, size, overlap, k))
    ensures Reach(WindowsUpTo(text, size, overlap, k)) == ReachAt(text, size, overlap, k)
  {
    if k > 0 {
      WindowsTile(text, size, overlap, k - 1);
      AdvancingStart(text, size, overlap, k - 1);
    }
  }

  /** One chunk is a trimmed, nonempty, numbered slice of the text at its own offsets. */
  predicate GoodChunk(doc: Document, text: string, size: nat, base: int, c: Chunk, ordinal: nat) {
    && 0 <= c.start - base < c.end - base <= |text|
    && c.text == text[c.start - base..c.end - base]
    && Trimmed(c.text)
    && |c.text| <= size
    && c.ordinal == ordinal
    && c.id == Identity(doc, ordinal, c.text)
    && c.citation == Citation(doc.accession, doc.item, ordinal)
  }

  predicate GoodChunks(doc: Document, text: string, size: nat, base: int, chunks: seq<Chunk>) {
    forall j :: 0 <= j < |chunks| ==> GoodChunk(doc, text, size, base, chunks[j], j)
  }

  /** Some chunk contains the character at position i of the text. */
  predicate Covered(chunks: seq<Chunk>, base: int, i: int) {
    exists c :: c in chunks && c.start - base <= i < c.end - base
  }

  lemma {:induction false} CutIsGood(doc: Document, text: string, size: nat, base: int, s: int, e: int, ordinal: nat)
    requires 0 <= s <= e <= |text| && e - s <= size
    ensures |Cut(doc, text, base, s, e, ordinal)| <= 1
    ensures forall c :: c in Cut(doc, text, base, s, e, ordinal) ==> GoodChunk(doc, text, size, base, c, ordinal)
  {
    if LeadingSpaces(text[s..e]) < TrimmedEnd(text[s..e]) {
      StrippedSlice(text, s, e);
    }
  }

  lemma {:induction false} CutCovers(doc: Document, text: string, base: int, s: int, e: int, ordinal: nat, i: int)
    requires 0 <= s <= i < e <= |text| && !IsSpace(text[i])
    ensures Covered(Cut(doc, text, base, s, e, ordinal), base, i)
  {
    var raw := text[s..e];
    assert raw[i - s] == text[i];
    StripKeepsVisible(raw, i - s);
    assert Cut(doc, text, base, s, e, ordinal)[0] in Cut(doc, text, base, s, e, ordinal);
  }

  lemma {:induction false} ChunksAreGood(doc: Document, text: string, size: nat, base: int, windows: seq<Window>)
    requires Tiling(text, size, windows)
    ensures GoodChunks(doc, text, size, base, ChunksOf(doc, text, base, windows))
  {
    if windows != [] {
      var before := ChunksOf(doc, text, base, windows[..|windows| - 1]);
      var last := windows[|windows| - 1];
      ChunksAreGood(doc, text, size, base, windows[..|windows| - 1]);
      CutIsGood(doc, text, size, base, last.start, last.end, |before|);
    }
  }

  lemma {:induction false} ChunksCover(doc: Document, text: string, size: nat, base: int, windows: seq<Window>, i: int)
    requires Tiling(text, size, windows)
    requires 0 <= i < Reach(windows) && i < |text| && !IsSpace(text[i])
    ensures Covered(ChunksOf(doc, text, base, windows), base, i)
  {
    var rest := windows[..|windows| - 1];
    var before := ChunksOf(doc, text, base, rest);
    var last := windows[|windows| - 1];
    if i < last.start {
      ChunksCover(doc, text, size, base, rest, i);
    } else {
      CutCovers(doc, text, base, last.start, last.end, |before|, i);
    }
  }

  ghost function Chunks(doc: Document, text: string, size: nat, overlap: nat, base: int): seq<Chunk>
    requires Halts(text, size, overlap)
  {
    ChunksOf(doc, text, base, Windows(text, size, overlap))
  }

  /** An ending loop's windows tile the whole text. */
  lemma {:induction false} WindowsTileText(text: string, size: nat, overlap: nat)
    requires overlap < size && Halts(text, size, overlap)
    ensures Tiling(text, size, Windows(text, size, overlap))
    ensures Reach(Windows(text, size, overlap)) == |text|
  {
    HaltsIffAdvances(text, size, overlap);
    var n := WindowCount(text, size, overlap);
    assert StartAt(text, size, overlap, n).None?;
    assert n > 0 ==> StartAt(text, size, overlap, n - 1).Some?;
    WindowsTile(text, size, overlap, n);
  }

  /**
   What retrieval relies on, for every text and every setting on which the chunker
   ends: each chunk is a trimmed slice of at most size characters at its own offsets,
   the ordinals count up from zero, and no visible character is lost.
   */
  lemma {:induction false} ChunksAreFaithful(doc: Document, text: string, size: nat, overlap: nat, base: int)
    requires overlap < size && Halts(text, size, overlap)
    ensures GoodChunks(doc, text, size, base, Chunks(doc, text, size, overlap, base))
    ensures forall i :: 0 <= i < |text| && !IsSpace(text[i]) ==>
      Covered(Chunks(doc, text, size, overlap, base), base, i)
  {
    var windows := Windows(text, size, overlap);
    WindowsTileText(text, size, overlap);
    ChunksAreGood(doc, text, size, base, windows);
    forall i | 0 <= i < |text| && !IsSpace(text[i])
      ensures Covered(Chunks(doc, text, size, overlap, base), base, i)
    {
      ChunksCover(doc, text, size, base, windows, i);
    }
  }

  /** Two different chunks of one document never share an identity or a citation. */
  lemma {:induction false} HandlesAreUnique(doc: Document, text: string, size: nat, base: int, chunks: seq<Chunk>)
    requires GoodChunks(doc, text, size, base, chunks)
    ensures forall i, j :: 0 <= i < j < |chunks| ==>
      chunks[i].id != chunks[j].id && chunks[i].citation != chunks[j].citation
  {
    forall i, j | 0 <= i < j < |chunks|
      ensures chunks[i].id != chunks[j].id && chunks[i].citation != chunks[j].citation
    {
      assert chunks[i].id.ordinal == i && chunks[j].id.ordinal == j;
    }
  }

  /** A section cut out of a filing yields chunks at filing offsets. */
  lemma {:induction false} GoodChunkIsFilingSlice(
    doc: Document, narrative: string, base: nat, text: string, size: nat, c: Chunk, ordinal: nat)
    requires base + |text| <= |narrative| && text == narrative[base..base + |text|]
    requires GoodChunk(doc, text, size, base, c, ordinal)
    ensures base <= c.start < c.end <= base + |text| && c.text == narrative[c.start..c.end]
  {
    SliceOfSlice(narrative, base, base + |text|, c.start - base, c.end - base);
  }

  lemma {:induction false} ChunksOfStep(doc: Document, text: string, base: int, windows: seq<Window>, k: nat)
    requires k < |windows|
    ensures var before := ChunksOf(doc, text, base, windows[..k]);
      ChunksOf(doc, text, base, windows[..k + 1])
      == before + Cut(doc, text, base, windows[k].start, windows[k].end, |before|)
  {
    assert windows[..k + 1][..k] == windows[..k];
  }

  predicate RunWindow(text: string, size: nat, overlap: nat, windows: seq<Window>, i: nat)
    requires i < |windows|
  {
    && 0 <= windows[i].start < |text|
    && windows[i].start == (if i == 0 then 0 else windows[i - 1].end - overlap)
    && windows[i].end == WindowEnd(text, size, windows[i].start)
    && (windows[i].end == |text| <==> i == |windows| - 1)
  }

  /** A complete run of the loop, window by window. */
  predicate CompleteRun(text: string, size: nat, overlap: nat, windows: seq<Window>) {
    && (windows == [] ==> text == [])
    && forall i :: 0 <= i < |windows| ==> RunWindow(text, size, overlap, windows, i)
  }

  lemma {:induction false} WindowAt(text: string, size: nat, overlap: nat, k: nat, i: nat)
    requires i < k && StartAt(text, size, overlap, k - 1).Some?
    ensures |WindowsUpTo(text, size, overlap, k)| == k && StartAt(text, size, overlap, i).Some?
    ensures var s := StartAt(text, size, overlap, i).value;
      WindowsUpTo(text, size, overlap, k)[i] == Window(s, WindowEnd(text, size, s))
  {
    var s := StartAt(text, size, overlap, k - 1).value;
    if k > 1 {
      WindowAt(text, size, overlap, k - 1, if i == k - 1 then 0 else i);
    }
  }

  /** The window at i of a loop of n windows, with the start of the one after it. */
  lemma {:induction false} WindowOfRun(text: string, size: nat, overlap: nat, i: nat) returns (s: int)
    requires overlap < size && Halts(text, size, overlap) && i < WindowCount(text, size, overlap)
    ensures |Windows(text, size, overlap)| == WindowCount(text, size, overlap)
    ensures 0 <= s < |text| && Windows(text, size, overlap)[i] == Window(s, WindowEnd(text, size, s))
    ensures StartAt(text, size, overlap, i) == Some(s)
    ensures StartAt(text, size, overlap, i + 1) == NextStart(text, size, overlap, s)
    ensures NextStart(text, size, overlap, s).None? <==> i + 1 == WindowCount(text, size, overlap)
  {
    var n := WindowCount(text, size, overlap);
    assert StartAt(text, size, overlap, n - 1).Some?;
    WindowAt(text, size, overlap, n, i);
    s := StartAt(text, size, overlap, i).value;
    StartIsInside(text, size, overlap, i, s);
  }

  lemma {:induction false} WindowsAreARun(text: string, size: nat, overlap: nat)
    requires overlap < size && Halts(text, size, overlap)
    ensures CompleteRun(text, size, overlap, Windows(text, size, overlap))
  {
    var windows := Windows(text, size, overlap);
    if WindowCount(text, size, overlap) == 0 {
      assert StartAt(text, size, overlap, 0).None?;
    } else {
      var _ := WindowOfRun(text, size, overlap, 0);
      forall i | 0 <= i < |windows|
        ensures RunWindow(text, size, overlap, windows, i)
      {
        RunWindowHolds(text, size, overlap, i);
      }
    }
  }

  lemma {:induction false} RunWindowHolds(text: string, size: nat, overlap: nat, i: nat)
    requires overlap < size && Halts(text, size, overlap) && i < WindowCount(text, size, overlap)
    ensures i < |Windows(text, size, overlap)| && RunWindow(text, size, overlap, Windows(text, size, overlap), i)
  {
    var _ := WindowOfRun(text, size, overlap, i);
    if i > 0 {
      var _ := WindowOfRun(text, size, overlap, i - 1);
    }
  }

  // ----- where the windows end ---------------------------------------------

  /** A newline in the second half of the window of full size at s, after its first character. */
  predicate MaySplit(text: string, size: nat, s: int, p: int) {
    0 <= p < |text| && s < p && s + size / 2 <= p < s + size && text[p] == '\n'
  }

  /** The window at s ends with the text, at its last newline that may split it, or at full size. */
  ghost predicate EndsWell(text: string, size: nat, s: int, e: int) {
    && (s + size >= |text| ==> e == |text|)
    && (s + size < |text| ==> e < |text|)
    && (s + size < |text| && (exists p :: MaySplit(text, size, s, p)) ==>
          MaySplit(text, size, s, e) && forall p :: MaySplit(text, size, s, p) ==> p <= e)
    && (s + size < |text| && !(exists p :: MaySplit(text, size, s, p)) ==> e == s + size)
  }

  lemma {:induction false} WindowEndsWell(text: string, size: nat, s: int)
    requires 0 <= s < |text|
    ensures EndsWell(text, size, s, WindowEnd(text, size, s))
  {
    if s + size < |text| {
      var lo, hi := s + size / 2, s + size;
      var split := LastNewline(text, lo, hi);
      forall p | MaySplit(text, size, s, p)
        ensures p <= split
      {
        if split < p {
          NoLaterNewline(text, lo, hi, p);
        }
      }
      if 0 <= split && split > s {
        assert MaySplit(text, size, s, split);
      }
    }
  }

  /**
   The run of the chunker, window by window: it starts at 0, each window ends where it should,
   the next begins overlap characters before that end, and the last ends with the text.
   */
  lemma {:induction false} WindowsBreakWell(text: string, size: nat, overlap: nat)
    requires overlap < size && Halts(text, size, overlap)
    ensures var windows := Windows(text, size, overlap);
      && (windows == [] <==> text == [])
      && (forall i :: 0 <= i < |windows| ==> EndsWell(text, size, windows[i].start, windows[i].end))
      && (forall i :: 0 <= i < |windows| ==>
            windows[i].start == if i == 0 then 0 else windows[i - 1].end - overlap)
      && (forall i :: 0 <= i < |windows| ==> (windows[i].end == |text| <==> i == |windows| - 1))
  {
    var windows := Windows(text, size, overlap);
    WindowsAreARun(text, size, overlap);
    forall i | 0 <= i < |windows|
      ensures EndsWell(text, size, windows[i].start, windows[i].end)
      ensures windows[i].start == if i == 0 then 0 else windows[i - 1].end - overlap
      ensures windows[i].end == |text| <==> i == |windows| - 1
    {
      assert RunWindow(text, size, overlap, windows, i);
      WindowEndsWell(text, size, windows[i].start);
    }
    if windows != [] {
      assert RunWindow(text, size, overlap, windows, 0);
    }
  }

  predicate Blank(text: string, s: int, e: int) {
    forall i :: 0 <= i < |text| && s <= i < e ==> IsSpace(text[i])
  }

  /** The chunk runs from the first visible character of the window to its last one. */
  predicate Extends(text: string, base: int, w: Window, c: Chunk) {
    var left, right := c.start - base, c.end - base;
    && w.start <= left < right <= w.end && 0 <= left && right <= |text|
    && c.text == text[left..right]
    && !IsSpace(text[left]) && !IsSpace(text[right - 1])
    && Blank(text, w.start, left) && Blank(text, right, w.end)
  }

  /** Every window that is not blank yields one chunk, in order; a blank one yields none. */
  lemma {:induction false} ChunkOfWindow(doc: Document, text: string, base: int, windows: seq<Window>, k: nat)
    requires k < |windows| && 0 <= windows[k].start <= windows[k].end <= |text|
    ensures var before, after := ChunksOf(doc, text, base, windows[..k]), ChunksOf(doc, text, base, windows[..k + 1]);
      if Blank(text, windows[k].start, windows[k].end) then after == before
      else
        && |after| == |before| + 1 && after[..|before|] == before
        && Extends(text, base, windows[k], after[|before|])
        && after[|before|].ordinal == |before|
  {
    ChunksOfStep(doc, text, base, windows, k);
    CutExtends(doc, text, base, windows[k], |ChunksOf(doc, text, base, windows[..k])|);
  }

  /** So every chunk comes from one of the windows. */
  lemma {:induction false} ChunkHasWindow(doc: Document, text: string, base: int, windows: seq<Window>, c: Chunk)
    returns (w: Window)
    requires forall v :: v in windows ==> 0 <= v.start <= v.end <= |text|
    requires c in ChunksOf(doc, text, base, windows)
    ensures w in windows && Extends(text, base, w, c)
  {
    var before, last := windows[..|windows| - 1], windows[|windows| - 1];
    assert last in windows && forall v :: v in before ==> v in windows;
    if c in ChunksOf(doc, text, base, before) {
      w := ChunkHasWindow(doc, text, base, before, c);
    } else {
      w := last;
      CutExtends(doc, text, base, last, |ChunksOf(doc, text, base, before)|);
    }
  }

  lemma {:induction false} WindowsInText(text: string, size: nat, overlap: nat)
    requires overlap < size && Halts(text, size, overlap)
    ensures forall w :: w in Windows(text, size, overlap) ==>
      0 <= w.start <= w.end <= |text| && EndsWell(text, size, w.start, w.end)
  {
    var windows := Windows(text, size, overlap);
    WindowsAreARun(text, size, overlap);
    WindowsBreakWell(text, size, overlap);
    forall w | w in windows
      ensures 0 <= w.start <= w.end <= |text| && EndsWell(text, size, w.start, w.end)
    {
      var i :| 0 <= i < |windows| && windows[i] == w;
      assert RunWindow(text, size, overlap, windows, i);
    }
  }

  lemma {:induction false} CutExtends(doc: Document, text: string, base: int, w: Window, ordinal: nat)
    requires 0 <= w.start <= w.end <= |text|
    ensures var cut := Cut(doc, text, base, w.start, w.end, ordinal);
      if Blank(text, w.start, w.end) then cut == []
      else |cut| == 1 && Extends(text, base, w, cut[0]) && cut[0].ordinal == ordinal
  {
    StripExtends(text, w.start, w.end);
  }

  lemma {:induction false} StripExtends(text: string, a: nat, b: nat)
    requires a <= b <= |text|
    ensures var left, right := LeadingSpaces(text[a..b]), TrimmedEnd(text[a..b]);
      && right <= b - a
      && Blank(text, a, a + left) && Blank(text, a + right, b)
      && (left >= right ==> Blank(text, a, b))
      && (left < right ==>
            && !IsSpace(text[a + left]) && !IsSpace(text[a + right - 1])
            && text[a..b][left..right] == text[a + left..a + right])
  {
    var raw := text[a..b];
    forall i | a <= i < b && !IsSpace(text[i])
      ensures a + LeadingSpaces(raw) <= i < a + TrimmedEnd(raw)
    {
      assert raw[i - a] == text[i];
      StripKeepsVisible(raw, i - a);
    }
    if LeadingSpaces(raw) < TrimmedEnd(raw) {
      StrippedSlice(text, a, b);
      assert raw[LeadingSpaces(raw)] == text[a + LeadingSpaces(raw)];
      assert raw[TrimmedEnd(raw) - 1] == text[a + TrimmedEnd(raw) - 1];
    }
  }

  lemma {:induction false} StartIsInside(text: string, size: nat, overlap: nat, k: nat, s: int)
    requires overlap < size && Halts(text, size, overlap)
    requires StartAt(text, size, overlap, k) == Some(s)
    ensures 0 <= s < |text|
  {
    HaltsIffAdvances(text, size, overlap);
    AdvancingStart(text, size, overlap, k);
  }

  /** The part of the loop body that places the end of the window. */
  method FindEnd(text: string, size: nat, start: nat) returns (end: int)
    requires start < |text|
    ensures end == WindowEnd(text, size, start) && start <= end <= |text|
  {
    end := if start + size < |text| then start + size else |text|;
    if end < |text| {
      var split := LastNewline(text, start + size / 2, end);
      if split > start {
        end := split;
      }
    }
  }

  /** The part of the loop body that strips the window and appends a chunk unless it is blank. */
  method AppendChunk(doc: Document, text: string, base: int, start: nat, end: nat, chunks: seq<Chunk>)
    returns (longer: seq<Chunk>)
    requires start <= end <= |text|
    ensures longer == chunks + Cut(doc, text, base, start, end, |chunks|)
  {
    var raw := text[start..end];
    var left := LeadingSpaces(raw);
    var right := TrimmedEnd(raw);
    var content := if left < right then raw[left..right] else "";
    longer := chunks;
    if content != "" {
      var ordinal := |chunks|;
      var citation := Citation(doc.accession, doc.item, ordinal);
      longer := chunks + [Chunk(Identity(doc, ordinal, content), ordinal, content,
                                base + start + left, base + start + right, citation)];
    }
  }

  /** The loop of make_chunks; its run is the given windows. */
  method CutWindows(
    doc: Document, text: string, size: nat, overlap: nat, base: int, ghost windows: seq<Window>)
    returns (chunks: seq<Chunk>)
    requires CompleteRun(text, size, overlap, windows)
    ensures chunks == ChunksOf(doc, text, base, windows)
  {
    chunks := [];
    var start := 0;
    ghost var k := 0;
    assert windows != [] ==> RunWindow(text, size, overlap, windows, 0);
    while start < |text|
      invariant 0 <= k <= |windows|
      invariant k < |windows| ==> start == windows[k].start && start < |text|
      invariant k == |windows| ==> start >= |text|
      invariant chunks == ChunksOf(doc, text, base, windows[..k])
      decreases |windows| - k
    {
      assert RunWindow(text, size, overlap, windows, k);
      var end := FindEnd(text, size, start);
      ChunksOfStep(doc, text, base, windows, k);
      chunks := AppendChunk(doc, text, base, start, end, chunks);
      k := k + 1;
      if end == |text| {
        break;
      }
      start := end - overlap;
      assert RunWindow(text, size, overlap, windows, k);
    }
    assert windows[..|windows|] == windows;
  }

  /**
   make_chunks. The precondition is only that the loop ends on this text: see
   HaltsOnEveryText for the settings that guarantee it.
   */
  method MakeChunks(doc: Document, text: string, size: nat, overlap: nat, base: int)
    returns (r: Result<seq<Chunk>, ChunkError>)
    requires overlap < size ==> Halts(text, size, overlap)
    ensures overlap >= size ==> r == Failure(OverlapNotSmallerThanSize)
    ensures overlap < size ==> r == Success(Chunks(doc, text, size, overlap, base))
    ensures overlap < size ==> forall w :: w in Windows(text, size, overlap) ==> EndsWell(text, size, w.start, w.end)
    ensures overlap < size ==> forall c :: c in r.value ==>
      exists w :: w in Windows(text, size, overlap) && Extends(text, base, w, c)
  {
    if overlap >= size {
      return Failure(OverlapNotSmallerThanSize);
    }
    WindowsAreARun(text, size, overlap);
    var chunks := CutWindows(doc, text, size, overlap, base, Windows(text, size, overlap));
    WindowsInText(text, size, overlap);
    forall c | c in chunks
      ensures exists w :: w in Windows(text, size, overlap) && Extends(text, base, w, c)
    {
      var w := ChunkHasWindow(doc, text, base, Windows(text, size, overlap), c);
    }
    return Success(chunks);
  }
}
