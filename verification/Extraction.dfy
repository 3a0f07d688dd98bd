/**
 extract_item of domain/filings.py, from heading and boundary positions on: the
 regular expressions that find them are parameters.
 */
module Extraction {
  import opened Wrappers
  import opened Chunking
  import opened CorpusReader
  import opened Sequences
  import opened Ordering

  /** One match of the Item's heading pattern, with the start of what _next_boundary finds after it. */
  datatype Heading = Heading(start: nat, end: nat, boundary: Option<nat>)

  datatype Choice = Choice(start: nat, end: nat, body: string)

  datatype Reason = BoundaryNotFound | HeadingNotFound | Ambiguous

  datatype Section = Present(text: string, start: nat, end: nat) | LegitimatelyAbsent | Failed(reason: Reason)

  /** s.strip() */
  function Strip(s: string): (t: string)
    ensures t == [] || Trimmed(t)
  {
    var left := LeadingSpaces(s);
    var right := TrimmedEnd(s);
    if left < right then s[left..right] else []
  }

  predicate InBounds(narrative: string, h: Heading) {
    h.start <= h.end <= |narrative| && (h.boundary.Some? ==> h.end <= h.boundary.value <= |narrative|)
  }

  predicate AllInBounds(narrative: string, headings: seq<Heading>) {
    forall h :: h in headings ==> InBounds(narrative, h)
  }

  // The verdict on one heading, in the order the loop body tests it.

  function Raw(narrative: string, h: Heading): string
    requires InBounds(narrative, h) && h.boundary.Some?
  {
    narrative[h.start..h.boundary.value]
  }

  predicate SaysAbsent(narrative: string, h: Heading, minBody: nat, absence: string -> bool)
    requires InBounds(narrative, h)
  {
    && h.boundary.Some?
    && var sectionBody := Strip(narrative[h.end..h.boundary.value]);
       absence(sectionBody) && |sectionBody| < minBody
  }

  predicate IsChoice(narrative: string, h: Heading, minBody: nat, absence: string -> bool)
    requires InBounds(narrative, h)
  {
    && h.boundary.Some?
    && !SaysAbsent(narrative, h, minBody, absence)
    && |Strip(Raw(narrative, h))| >= minBody
  }

  function ChoiceOf(narrative: string, h: Heading): Choice
    requires InBounds(narrative, h) && h.boundary.Some?
  {
    var raw := Raw(narrative, h);
    var body := Strip(raw);
    var leading := LeadingSpaces(raw);
    Choice(h.start + leading, h.start + leading + |body|, body)
  }

  function Choices(narrative: string, headings: seq<Heading>, minBody: nat, absence: string -> bool): seq<Choice>
    requires AllInBounds(narrative, headings)
  {
    if headings == [] then []
    else
      var last := headings[|headings| - 1];
      var before := Choices(narrative, headings[..|headings| - 1], minBody, absence);
      if IsChoice(narrative, last, minBody, absence) then before + [ChoiceOf(narrative, last)] else before
  }

  predicate AnyAbsent(narrative: string, headings: seq<Heading>, minBody: nat, absence: string -> bool)
    requires AllInBounds(narrative, headings)
  {
    headings != [] &&
    (AnyAbsent(narrative, headings[..|headings| - 1], minBody, absence)
     || SaysAbsent(narrative, headings[|headings| - 1], minBody, absence))
  }

  predicate AnyUnbounded(headings: seq<Heading>) {
    headings != [] && (AnyUnbounded(headings[..|headings| - 1]) || headings[|headings| - 1].boundary.None?)
  }

  function Length(c: Choice): int { c.end - c.start }

  /** choices.sort(key=length, reverse=True): longest first. */
  predicate Longer(a: Choice, b: Choice) {
    Length(a) > Length(b)
  }

  /** The runner-up is at least 0.8 as long as the winner. */
  predicate Rivals(winner: Choice, other: Choice) {
    5 * Length(other) >= 4 * Length(winner)
  }

  function Verdict(choices: seq<Choice>, explicitAbsence: bool, sawUnbounded: bool): Section {
    var sorted := SortBy(Longer, choices);
    if sorted == [] then
      if explicitAbsence then LegitimatelyAbsent
      else Failed(if sawUnbounded then BoundaryNotFound else HeadingNotFound)
    else if |sorted| > 1 && Rivals(sorted[0], sorted[1]) then Failed(Ambiguous)
    else Present(sorted[0].body, sorted[0].start, sorted[0].end)
  }

  /** What one more heading adds to the three things the loop collects. */
  lemma {:induction false} HeadingStep(
    narrative: string, headings: seq<Heading>, k: nat, minBody: nat, absence: string -> bool)
    requires AllInBounds(narrative, headings) && k < |headings|
    ensures AllInBounds(narrative, headings[..k]) && AllInBounds(narrative, headings[..k + 1])
    ensures InBounds(narrative, headings[k])
    ensures Choices(narrative, headings[..k + 1], minBody, absence)
         == if IsChoice(narrative, headings[k], minBody, absence)
            then Choices(narrative, headings[..k], minBody, absence) + [ChoiceOf(narrative, headings[k])]
            else Choices(narrative, headings[..k], minBody, absence)
    ensures AnyAbsent(narrative, headings[..k + 1], minBody, absence)
         == (AnyAbsent(narrative, headings[..k], minBody, absence)
             || SaysAbsent(narrative, headings[k], minBody, absence))
    ensures AnyUnbounded(headings[..k + 1]) == (AnyUnbounded(headings[..k]) || headings[k].boundary.None?)
  {
    assert headings[..k + 1][..k] == headings[..k];
    assert headings[k] in headings;
  }

  /** The loop body of extract_item for a heading that has a boundary. */
  method TryHeading(narrative: string, h: Heading, minBody: nat, absence: string -> bool)
    returns (absent: bool, choice: Option<Choice>)
    requires InBounds(narrative, h) && h.boundary.Some?
    ensures absent == SaysAbsent(narrative, h, minBody, absence)
    ensures !absent ==>
      choice == if IsChoice(narrative, h, minBody, absence) then Some(ChoiceOf(narrative, h)) else None
  {
    var raw := Raw(narrative, h);
    var body := Strip(raw);
    var sectionBody := Strip(narrative[h.end..h.boundary.value]);
    if absence(sectionBody) && |sectionBody| < minBody {
      return true, None;
    }
    if |body| < minBody {
      return false, None;
    }
    var leading := LeadingSpaces(raw);
    return false, Some(Choice(h.start + leading, h.start + leading + |body|, body));
  }

  function Extracted(narrative: string, headings: seq<Heading>, minBody: nat, absence: string -> bool): Section
    requires AllInBounds(narrative, headings)
  {
    Verdict(Choices(narrative, headings, minBody, absence), AnyAbsent(narrative, headings, minBody, absence),
            AnyUnbounded(headings))
  }

  /** extract_item */
  method ExtractItem(narrative: string, headings: seq<Heading>, minBody: nat, absence: string -> bool)
    returns (section: Section)
    requires AllInBounds(narrative, headings)
    ensures section == Extracted(narrative, headings, minBody, absence)
  {
    var choices: seq<Choice> := [];
    var explicitAbsence := false;
    var sawUnbounded := false;
    for k := 0 to |headings|
      invariant AllInBounds(narrative, headings[..k])
      invariant choices == Choices(narrative, headings[..k], minBody, absence)
      invariant explicitAbsence == AnyAbsent(narrative, headings[..k], minBody, absence)
      invariant sawUnbounded == AnyUnbounded(headings[..k])
    {
      HeadingStep(narrative, headings, k, minBody, absence);
      var heading := headings[k];
      if heading.boundary.None? {
        sawUnbounded := true;
        continue;
      }
      var absent, choice := TryHeading(narrative, heading, minBody, absence);
      if absent {
        explicitAbsence := true;
        continue;
      }
      if choice.Some? {
        choices := choices + [choice.value];
      }
    }
    assert headings[..|headings|] == headings;
    section := Decide(choices, explicitAbsence, sawUnbounded);
  }

  /** The part of extract_item after its loop. */
  method Decide(choices: seq<Choice>, explicitAbsence: bool, sawUnbounded: bool) returns (section: Section)
    ensures section == Verdict(choices, explicitAbsence, sawUnbounded)
  {
    var sorted := SortBy(Longer, choices);
    if sorted == [] {
      if explicitAbsence {
        return LegitimatelyAbsent;
      }
      return Failed(if sawUnbounded then BoundaryNotFound else HeadingNotFound);
    }
    if |sorted| > 1 && Rivals(sorted[0], sorted[1]) {
      return Failed(Ambiguous);
    }
    return Present(sorted[0].body, sorted[0].start, sorted[0].end);
  }

  // ----- what a present section is ----------------------------------------

  lemma {:induction false} ChoiceIsSlice(narrative: string, h: Heading)
    requires InBounds(narrative, h) && h.boundary.Some?
    ensures var c := ChoiceOf(narrative, h);
      && h.start <= c.start <= c.end <= |narrative|
      && (c.body != [] ==> c.end <= h.boundary.value)
      && c.body == narrative[c.start..c.end]
      && (c.body == [] || Trimmed(c.body))
  {
    var raw := Raw(narrative, h);
    if LeadingSpaces(raw) < TrimmedEnd(raw) {
      StrippedSlice(narrative, h.start, h.boundary.value);
    }
  }

  lemma {:induction false} ChoicesComeFromHeadings(
    narrative: string, headings: seq<Heading>, minBody: nat, absence: string -> bool, c: Choice)
    requires AllInBounds(narrative, headings)
    ensures c in Choices(narrative, headings, minBody, absence) <==>
      exists h :: h in headings && IsChoice(narrative, h, minBody, absence) && ChoiceOf(narrative, h) == c
  {
    if headings != [] {
      var rest, last := headings[..|headings| - 1], headings[|headings| - 1];
      assert headings == rest + [last];
      ChoicesComeFromHeadings(narrative, rest, minBody, absence, c);
    }
  }

  /** Every other choice is less than 0.8 times as long as the i-th. */
  ghost predicate Unrivalled(choices: seq<Choice>, i: nat)
    requires i < |choices|
  {
    forall j :: 0 <= j < |choices| && j != i ==> !Rivals(choices[i], choices[j])
  }

  /** The sorted list is the winner followed by all the other choices. */
  lemma {:induction false} OthersOf(choices: seq<Choice>, sorted: seq<Choice>, i: nat)
    requires i < |choices| && sorted != [] && multiset(sorted) == multiset(choices) && sorted[0] == choices[i]
    ensures forall y :: y in sorted[1..] <==> y in Without(choices, i)
  {
    WithoutElements(choices, i);
    assert sorted == [sorted[0]] + sorted[1..];
    assert multiset(sorted) == multiset(sorted[1..]) + multiset{sorted[0]};
    assert multiset(sorted[1..]) == multiset(sorted) - multiset{sorted[0]};
    assert multiset(Without(choices, i)) == multiset(choices) - multiset{choices[i]};
    forall y
      ensures y in sorted[1..] <==> y in Without(choices, i)
    {
      assert y in sorted[1..] <==> y in multiset(sorted[1..]);
      assert y in Without(choices, i) <==> y in multiset(Without(choices, i));
    }
  }

  lemma {:induction false} WinnerIsUnrivalled(choices: seq<Choice>, sorted: seq<Choice>, i: nat)
    requires i < |choices| && sorted != [] && multiset(sorted) == multiset(choices) && sorted[0] == choices[i]
    requires Sorted(Longer, sorted)
    ensures Unrivalled(choices, i) <==> (|sorted| == 1 || !Rivals(sorted[0], sorted[1]))
  {
    OthersOf(choices, sorted, i);
    WithoutElements(choices, i);
    if |sorted| > 1 {
      assert sorted[1..][0] in Without(choices, i);
    }
    if |sorted| == 1 || !Rivals(sorted[0], sorted[1]) {
      forall j | 0 <= j < |choices| && j != i
        ensures !Rivals(choices[i], choices[j])
      {
        assert choices[j] in Without(choices, i);
        var m :| 0 <= m < |sorted[1..]| && sorted[1..][m] == choices[j];
        if m > 0 {
          SortedPair(Longer, sorted, 1, m + 1);
        }
      }
    }
  }

  /** A choice that beats all others comes first whatever the order of the headings. */
  lemma {:induction false} UnrivalledComesFirst(choices: seq<Choice>, sorted: seq<Choice>, i: nat)
    requires i < |choices| && Unrivalled(choices, i)
    requires forall c :: c in choices ==> 0 <= Length(c)
    requires forall y :: y in sorted <==> y in choices
    requires Sorted(Longer, sorted)
    ensures sorted != [] && sorted[0] == choices[i]
  {
    assert choices[i] in sorted;
    HeadIsLeast(Longer, sorted, choices[i]);
    assert sorted[0] in choices;
    var j :| 0 <= j < |choices| && choices[j] == sorted[0];
    assert j != i ==> !Rivals(choices[i], choices[j]);
  }

  /**
   An Item is present exactly when one candidate is unrivalled, and then it is that
   candidate: the verdict does not depend on the order in which headings were found.
   */
  lemma {:induction false} PresentIff(choices: seq<Choice>, a: bool, u: bool, c: Choice)
    requires forall d :: d in choices ==> 0 <= Length(d)
    ensures Verdict(choices, a, u) == Present(c.body, c.start, c.end)
       <==> exists i :: 0 <= i < |choices| && choices[i] == c && Unrivalled(choices, i)
  {
    var sorted := SortBy(Longer, choices);
    SortElements(Longer, choices);
    SortSorted(Longer, choices);
    if Verdict(choices, a, u) == Present(c.body, c.start, c.end) {
      assert sorted[0] == c && c in choices;
      var i :| 0 <= i < |choices| && choices[i] == c;
      WinnerIsUnrivalled(choices, sorted, i);
    }
    if i: int :| 0 <= i < |choices| && choices[i] == c && Unrivalled(choices, i) {
      UnrivalledComesFirst(choices, sorted, i);
      WinnerIsUnrivalled(choices, sorted, i);
    }
  }

  /** A present section is a trimmed slice of the narrative, at least as long as the Item requires. */
  lemma {:induction false} PresentIsSlice(
    narrative: string, headings: seq<Heading>, minBody: nat, absence: string -> bool)
    requires AllInBounds(narrative, headings) && 0 < minBody
    ensures var section := Extracted(narrative, headings, minBody, absence);
      section.Present? ==>
        && section.start <= section.end <= |narrative|
        && section.text == narrative[section.start..section.end]
        && Trimmed(section.text)
        && minBody <= |section.text|
  {
    var choices := Choices(narrative, headings, minBody, absence);
    var section := Extracted(narrative, headings, minBody, absence);
    if section.Present? {
      var c := SortBy(Longer, choices)[0];
      SortElements(Longer, choices);
      ChoicesComeFromHeadings(narrative, headings, minBody, absence, c);
      var h :| h in headings && IsChoice(narrative, h, minBody, absence) && ChoiceOf(narrative, h) == c;
      ChoiceIsSlice(narrative, h);
    }
  }

  // ----- why there is no section ------------------------------------------

  /** From the first visible character of [a, b) to the last there are at least n characters. */
  ghost predicate Holds(text: string, a: nat, b: nat, n: nat) {
    n == 0 || exists p: nat, q: nat ::
      a <= p <= q < b <= |text| && q - p + 1 >= n && !IsSpace(text[p]) && !IsSpace(text[q])
  }

  lemma {:induction false} StripHolds(text: string, a: nat, b: nat, n: nat)
    requires a <= b <= |text|
    ensures |Strip(text[a..b])| >= n <==> Holds(text, a, b, n)
  {
    var raw := text[a..b];
    StripExtends(text, a, b);
    var left, right := LeadingSpaces(raw), TrimmedEnd(raw);
    if left < right {
      assert |Strip(raw)| == right - left;
      if 0 < n <= right - left {
        var p: nat, q: nat := a + left, a + right - 1;
        assert a <= p <= q < b <= |text| && q - p + 1 >= n && !IsSpace(text[p]) && !IsSpace(text[q]);
      }
    }
  }

  /** The text after the heading says that the Item is absent, and is too short to be the Item. */
  ghost predicate Denies(narrative: string, h: Heading, minBody: nat, absence: string -> bool)
    requires InBounds(narrative, h)
  {
    && h.boundary.Some?
    && absence(Strip(narrative[h.end..h.boundary.value])) && !Holds(narrative, h.end, h.boundary.value, minBody)
  }

  /** The text from the heading on is long enough, and does not deny the Item. */
  ghost predicate Offers(narrative: string, h: Heading, minBody: nat, absence: string -> bool)
    requires InBounds(narrative, h)
  {
    && h.boundary.Some? && !Denies(narrative, h, minBody, absence)
    && Holds(narrative, h.start, h.boundary.value, minBody)
  }

  lemma {:induction false} VerdictOnHeading(narrative: string, h: Heading, minBody: nat, absence: string -> bool)
    requires InBounds(narrative, h)
    ensures SaysAbsent(narrative, h, minBody, absence) <==> Denies(narrative, h, minBody, absence)
    ensures IsChoice(narrative, h, minBody, absence) <==> Offers(narrative, h, minBody, absence)
  {
    if h.boundary.Some? {
      StripHolds(narrative, h.end, h.boundary.value, minBody);
      StripHolds(narrative, h.start, h.boundary.value, minBody);
    }
  }

  lemma {:induction false} AnyAbsentIff(
    narrative: string, headings: seq<Heading>, minBody: nat, absence: string -> bool)
    requires AllInBounds(narrative, headings)
    ensures AnyAbsent(narrative, headings, minBody, absence)
       <==> exists h :: h in headings && Denies(narrative, h, minBody, absence)
    ensures AnyUnbounded(headings) <==> exists h :: h in headings && h.boundary.None?
  {
    if headings != [] {
      var rest, last := headings[..|headings| - 1], headings[|headings| - 1];
      assert headings == rest + [last];
      AnyAbsentIff(narrative, rest, minBody, absence);
      VerdictOnHeading(narrative, last, minBody, absence);
    }
  }

  lemma {:induction false} ChoicesIff(narrative: string, headings: seq<Heading>, minBody: nat, absence: string -> bool)
    requires AllInBounds(narrative, headings)
    ensures Choices(narrative, headings, minBody, absence) != []
       <==> exists h :: h in headings && Offers(narrative, h, minBody, absence)
  {
    if headings != [] {
      var rest, last := headings[..|headings| - 1], headings[|headings| - 1];
      assert headings == rest + [last];
      ChoicesIff(narrative, rest, minBody, absence);
      VerdictOnHeading(narrative, last, minBody, absence);
    }
  }

  /**
   Without a heading that offers a section, the Item is absent when some heading denies it, and
   otherwise the failure says whether a heading was there whose end was not found. With one, the
   Item is present or ambiguous.
   */
  lemma {:induction false} NoSectionBecause(
    narrative: string, headings: seq<Heading>, minBody: nat, absence: string -> bool)
    requires AllInBounds(narrative, headings)
    ensures var section := Extracted(narrative, headings, minBody, absence);
      if exists h :: h in headings && Offers(narrative, h, minBody, absence) then
        section.Present? || section == Failed(Ambiguous)
      else if exists h :: h in headings && Denies(narrative, h, minBody, absence) then
        section == LegitimatelyAbsent
      else if exists h :: h in headings && h.boundary.None? then
        section == Failed(BoundaryNotFound)
      else
        section == Failed(HeadingNotFound)
  {
    ChoicesIff(narrative, headings, minBody, absence);
    AnyAbsentIff(narrative, headings, minBody, absence);
    SortElements(Longer, Choices(narrative, headings, minBody, absence));
  }

  /** A runner-up is a rival from 0.8 of the winner's length on. */
  lemma {:induction false} RivalsFrom(winner: Choice, other: Choice)
    ensures Rivals(winner, other)
       <==> (other.end - other.start) as real >= (winner.end - winner.start) as real * 0.8
  {
  }

  // ----- _next_boundary ---------------------------------------------------

  /** A generic Item heading: where it starts and its place among the ordered Items, if it has one. */
  datatype ItemMatch = ItemMatch(start: nat, order: Option<nat>)

  predicate Later(m: ItemMatch, current: nat) {
    m.order.Some? && m.order.value > current
  }

  predicate Ascending(matches: seq<ItemMatch>) {
    matches == [] ||
    (Ascending(matches[..|matches| - 1])
     && forall m :: m in matches[..|matches| - 1] ==> m.start <= matches[|matches| - 1].start)
  }

  /** next(match for match in ... if its Item is later than the current one) */
  function FirstLater(matches: seq<ItemMatch>, current: nat): Option<nat> {
    if matches == [] then None
    else
      match FirstLater(matches[..|matches| - 1], current)
      case Some(s) => Some(s)
      case None => if Later(matches[|matches| - 1], current) then Some(matches[|matches| - 1].start) else None
  }

  /** _next_boundary: the nearer of the first later Item and the first Part heading. */
  function NextBoundary(generics: seq<ItemMatch>, part: Option<nat>, current: nat): Option<nat> {
    var generic := FirstLater(generics, current);
    if generic.None? then part
    else if part.None? then generic
    else if generic.value < part.value then generic else part
  }

  lemma {:induction false} FirstLaterIsEarliest(matches: seq<ItemMatch>, current: nat)
    requires Ascending(matches)
    ensures match FirstLater(matches, current)
      case None => forall m :: m in matches ==> !Later(m, current)
      case Some(s) =>
        && (exists m :: m in matches && Later(m, current) && m.start == s)
        && (forall m :: m in matches && Later(m, current) ==> s <= m.start)
  {
    if matches != [] {
      var rest, last := matches[..|matches| - 1], matches[|matches| - 1];
      assert matches == rest + [last];
      FirstLaterIsEarliest(rest, current);
      if FirstLater(rest, current).None? && Later(last, current) {
        assert last in matches;
      }
    }
  }

  /** A section ends at the first heading that can end it: no later Item and no Part lies before. */
  lemma {:induction false} BoundaryIsEarliest(generics: seq<ItemMatch>, part: Option<nat>, current: nat)
    requires Ascending(generics)
    ensures var b := NextBoundary(generics, part, current);
      && (b.None? <==> part.None? && forall m :: m in generics && m.order.Some? ==> m.order.value <= current)
      && (b.Some? ==>
            && (part.Some? ==> b.value <= part.value)
            && (forall m :: m in generics && m.order.Some? && current < m.order.value ==> b.value <= m.start)
            && (b == part
                || exists m :: m in generics && m.order.Some? && current < m.order.value && m.start == b.value))
  {
    FirstLaterIsEarliest(generics, current);
  }

  /** The heading's boundary is the one _next_boundary finds; what the patterns find depends on where they start. */
  predicate Bounded(h: Heading, generics: nat -> seq<ItemMatch>, parts: nat -> Option<nat>, current: nat) {
    h.boundary == NextBoundary(generics(h.end), parts(h.end), current)
  }

  /** No heading that can end a section is found between the heading h and position end. */
  predicate StopsBefore(
    h: Heading, end: nat, generics: nat -> seq<ItemMatch>, parts: nat -> Option<nat>, current: nat)
  {
    && (forall m :: m in generics(h.end) && m.order.Some? && current < m.order.value ==> end <= m.start)
    && (parts(h.end).Some? ==> end <= parts(h.end).value)
  }

  /** The position is the first visible character from the start of the heading on. */
  predicate BeginsAt(narrative: string, h: Heading, start: nat) {
    InBounds(narrative, h) && h.boundary.Some? && start == h.start + LeadingSpaces(Raw(narrative, h))
  }

  /** A present section begins at one of the Item's headings and never runs into a later Item or a Part. */
  lemma {:induction false} SectionStopsInTime(
    narrative: string, headings: seq<Heading>, minBody: nat, absence: string -> bool, section: Section,
    generics: nat -> seq<ItemMatch>, parts: nat -> Option<nat>, current: nat)
    requires AllInBounds(narrative, headings) && 0 < minBody
    requires forall h :: h in headings ==> Bounded(h, generics, parts, current) && Ascending(generics(h.end))
    requires section == Extracted(narrative, headings, minBody, absence) && section.Present?
    ensures exists h :: h in headings && BeginsAt(narrative, h, section.start)
                     && StopsBefore(h, section.end, generics, parts, current)
  {
    var choices := Choices(narrative, headings, minBody, absence);
    var c := SortBy(Longer, choices)[0];
    SortElements(Longer, choices);
    ChoicesComeFromHeadings(narrative, headings, minBody, absence, c);
    var h :| h in headings && IsChoice(narrative, h, minBody, absence) && ChoiceOf(narrative, h) == c;
    ChoiceIsSlice(narrative, h);
    BoundaryIsEarliest(generics(h.end), parts(h.end), current);
    assert BeginsAt(narrative, h, section.start) && StopsBefore(h, section.end, generics, parts, current);
  }

  // ----- from filing to highlight -----------------------------------------

  /**
   The whole offset pipeline: every chunk of a present section is a slice of the
   filing at the offsets it is stored with, there is at least one, and the reader
   resolves each one to marks that spell it.
   */
  lemma {:induction false} SectionChunksResolve(
    narrative: string, headings: seq<Heading>, minBody: nat, absence: string -> bool, section: Section,
    doc: Document, size: nat, overlap: nat, c: Chunk)
    requires AllInBounds(narrative, headings) && 0 < minBody
    requires section == Extracted(narrative, headings, minBody, absence) && section.Present?
    requires overlap < size && Halts(section.text, size, overlap)
    requires c in Chunks(doc, section.text, size, overlap, section.start)
    ensures section.start <= c.start < c.end <= section.end <= |narrative|
    ensures c.text == narrative[c.start..c.end]
    ensures ReaderMarks(ParagraphsFrom(section.text, 0, 0), section.start, c) == Some(WithoutBreaks(c.text))
  {
    PresentIsSlice(narrative, headings, minBody, absence);
    SliceChunksResolve(narrative, section, doc, size, overlap, c);
  }

  lemma {:induction false} SliceChunksResolve(
    narrative: string, section: Section, doc: Document, size: nat, overlap: nat, c: Chunk)
    requires section.Present? && section.start <= section.end <= |narrative|
    requires section.text == narrative[section.start..section.end]
    requires overlap < size && Halts(section.text, size, overlap)
    requires c in Chunks(doc, section.text, size, overlap, section.start)
    ensures section.start <= c.start < c.end <= section.end
    ensures c.text == narrative[c.start..c.end]
    ensures ReaderMarks(ParagraphsFrom(section.text, 0, 0), section.start, c) == Some(WithoutBreaks(c.text))
  {
    StoredChunkResolves(narrative, section.text, section.start, doc, size, overlap, c);
  }

  lemma {:induction false} StoredChunkResolves(
    narrative: string, text: string, start: nat, doc: Document, size: nat, overlap: nat, c: Chunk)
    requires start + |text| <= |narrative| && text == narrative[start..start + |text|]
    requires overlap < size && Halts(text, size, overlap) && c in Chunks(doc, text, size, overlap, start)
    ensures start <= c.start < c.end <= start + |text|
    ensures c.text == narrative[c.start..c.end]
    ensures ReaderMarks(ParagraphsFrom(text, 0, 0), start, c) == Some(WithoutBreaks(c.text))
  {
    ChunksAreFaithful(doc, text, size, overlap, start);
    var chunks := Chunks(doc, text, size, overlap, start);
    var j :| 0 <= j < |chunks| && chunks[j] == c;
    assert GoodChunk(doc, text, size, start, c, j);
    GoodChunkIsFilingSlice(doc, narrative, start, text, size, c, j);
    ChunkIsHighlighted(doc, text, size, start, c, j);
  }

  /** A present section always yields a chunk, so it always has something to retrieve. */
  lemma {:induction false} PresentSectionHasChunks(text: string, start: nat, doc: Document, size: nat, overlap: nat)
    requires Trimmed(text) && overlap < size && Halts(text, size, overlap)
    ensures Chunks(doc, text, size, overlap, start) != []
  {
    ChunksAreFaithful(doc, text, size, overlap, start);
    assert Covered(Chunks(doc, text, size, overlap, start), start, 0);
  }
}
