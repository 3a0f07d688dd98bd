/**
 The wire form of the research stream and its incremental reader: the printing half of
 stream_research (api/routers/public/research.py) and streamResearch
 (frontend/src/researchApi.ts). The format is the part of Server-sent events, section
 9.2.6 of the WHATWG HTML Living Standard, that the two ends use.

 Network reads are arbitrary cuts of the text; decoding bytes to characters and the
 JSON codec are outside the model (the codec's reader is the parameter parse).
 */
module EventStream {
  import opened Wrappers
  import opened Sequences

  datatype Event = Event(name: string, data: string)

  // ----- the printer ------------------------------------------------------

  function Block(e: Event): string {
    "event: " + e.name + "\ndata: " + e.data
  }

  /** What generate() yields for one event. */
  function PrintOne(e: Event): string {
    Block(e) + "\n\n"
  }

  function Print(events: seq<Event>): string {
    if events == [] then "" else Print(events[..|events| - 1]) + PrintOne(events[|events| - 1])
  }

  /** The text of the stream, event by event. */
  lemma {:induction false} WireForm(events: seq<Event>, e: Event)
    ensures Print([]) == ""
    ensures Print(events + [e]) == Print(events) + "event: " + e.name + "\ndata: " + e.data + "\n\n"
  {
    assert (events + [e])[..|events|] == events;
    Regroup(Print(events), Block(e), "\n\n");
  }

  // ----- String.prototype.split("\n\n") -----------------------------------

  predicate SeparatorAt(s: string, i: nat) {
    i + 1 < |s| && s[i] == '\n' && s[i + 1] == '\n'
  }

  /** The first separator at or after i, or the end of s. */
  function FirstSeparator(s: string, i: nat): (j: nat)
    requires i <= |s|
    ensures i <= j <= |s|
    ensures j < |s| ==> SeparatorAt(s, j)
    ensures forall m :: i <= m < j ==> !SeparatorAt(s, m)
    decreases |s| - i
  {
    if i == |s| || SeparatorAt(s, i) then i else FirstSeparator(s, i + 1)
  }

  function JsSplit(s: string, from: nat := 0): (parts: seq<string>)
    requires from <= |s|
    ensures parts != []
    decreases |s| - from
  {
    var i := FirstSeparator(s, from);
    if i == |s| then [s[from..]] else [s[from..i]] + JsSplit(s, i + 2)
  }

  // ----- splitting one character at a time --------------------------------

  /** Blocks already closed and the text of the open one. */
  datatype Splitter = Splitter(blocks: seq<string>, rest: string)

  function Feed1(st: Splitter, c: char): Splitter {
    var open := st.rest + [c];
    if |open| >= 2 && open[|open| - 2] == '\n' && c == '\n' then Splitter(st.blocks + [open[..|open| - 2]], "")
    else Splitter(st.blocks, open)
  }

  function Feed(st: Splitter, s: string): Splitter {
    if s == "" then st else Feed1(Feed(st, s[..|s| - 1]), s[|s| - 1])
  }

  const FRESH := Splitter([], "")

  lemma {:induction false} FeedAppend(st: Splitter, a: string, b: string)
    ensures Feed(st, a + b) == Feed(Feed(st, a), b)
  {
    if b == "" {
      assert a + b == a;
    } else {
      assert (a + b)[..|a + b| - 1] == a + b[..|b| - 1];
      FeedAppend(st, a, b[..|b| - 1]);
    }
  }

  predicate NoSeparator(s: string) {
    forall i: nat :: i < |s| ==> !SeparatorAt(s, i)
  }

  lemma {:induction false} PrefixIsPlain(s: string, n: nat)
    requires NoSeparator(s) && n <= |s|
    ensures NoSeparator(s[..n])
  {
    forall i: nat | i < n
      ensures !SeparatorAt(s[..n], i)
    {
      assert !SeparatorAt(s, i);
    }
  }

  lemma {:induction false} Feed1Plain(blocks: seq<string>, t: string, c: char)
    requires NoSeparator(t + [c])
    ensures Feed1(Splitter(blocks, t), c) == Splitter(blocks, t + [c])
  {
    if t != "" {
      assert !SeparatorAt(t + [c], |t| - 1);
    }
  }

  /** Text without a separator just accumulates. */
  lemma {:induction false} FeedPlain(blocks: seq<string>, s: string)
    requires NoSeparator(s)
    ensures Feed(Splitter(blocks, ""), s) == Splitter(blocks, s)
  {
    if s != "" {
      var t, c := s[..|s| - 1], s[|s| - 1];
      assert s == t + [c];
      PrefixIsPlain(s, |s| - 1);
      FeedPlain(blocks, t);
      Feed1Plain(blocks, t, c);
    }
  }

  /** The open block never holds a separator. */
  lemma {:induction false} RestIsPlain(s: string)
    ensures NoSeparator(Feed(FRESH, s).rest)
  {
    if s != "" {
      var t := s[..|s| - 1];
      RestIsPlain(t);
      var before := Feed(FRESH, t).rest;
      var open := before + [s[|s| - 1]];
      assert forall i: nat :: i + 1 < |before| && SeparatorAt(open, i) ==> SeparatorAt(before, i);
    }
  }

  /** Blocks closed earlier stay in front. */
  lemma {:induction false} FeedKeepsBlocks(blocks: seq<string>, rest: string, s: string)
    ensures Feed(Splitter(blocks, rest), s)
         == Splitter(blocks + Feed(Splitter([], rest), s).blocks, Feed(Splitter([], rest), s).rest)
  {
    if s == "" {
      assert blocks + [] == blocks;
    } else {
      FeedKeepsBlocks(blocks, rest, s[..|s| - 1]);
      var inner := Feed(Splitter([], rest), s[..|s| - 1]);
      var open := inner.rest + [s[|s| - 1]];
      if |open| >= 2 {
        var closed := [open[..|open| - 2]];
        assert blocks + (inner.blocks + closed) == (blocks + inner.blocks) + closed;
      }
    }
  }

  /** A separator that follows plain text closes it as a block. */
  lemma {:induction false} FeedCloses(blocks: seq<string>, s: string)
    requires NoSeparator(s + "\n")
    ensures Feed(Splitter(blocks, ""), s + "\n\n") == Splitter(blocks + [s], "")
  {
    FeedPlain(blocks, s + "\n");
    assert s + "\n\n" == (s + "\n") + ['\n'];
    FeedAppend(Splitter(blocks, ""), s + "\n", ['\n']);
    var st := Splitter(blocks, s + "\n");
    assert ['\n'][..0] == "";
    assert Feed(st, "") == st;
    var open := st.rest + ['\n'];
    assert open[|open| - 2] == '\n';
    assert open[..|open| - 2] == s;
  }

  lemma {:induction false} FeedFirstBlock(head: string, tail: string)
    requires NoSeparator(head + "\n")
    ensures var st := Feed(FRESH, tail);
      Feed(FRESH, head + "\n\n" + tail) == Splitter([head] + st.blocks, st.rest)
  {
    FeedCloses([], head);
    FeedAppend(FRESH, head + "\n\n", tail);
    assert [] + [head] == [head];
    FeedKeepsBlocks([head], "", tail);
  }

  lemma {:induction false} OnlyPart(s: string, from: nat)
    requires from <= |s| && FirstSeparator(s, from) == |s|
    ensures JsSplit(s, from) == Feed(FRESH, s[from..]).blocks + [Feed(FRESH, s[from..]).rest]
  {
    SliceIsPlain(s, from, |s|, |s|);
    assert s[from..|s|] == s[from..];
    FeedPlain([], s[from..]);
  }

  lemma {:induction false} JsSplitStep(s: string, from: nat)
    requires from <= |s| && FirstSeparator(s, from) < |s|
    ensures var i := FirstSeparator(s, from);
      JsSplit(s, from) == [s[from..i]] + JsSplit(s, i + 2)
  {
  }

  /** split("\n\n") on any text is what the character automaton computes. */
  lemma {:induction false} JsSplitIsFeed(s: string, from: nat)
    requires from <= |s|
    ensures JsSplit(s, from) == Feed(FRESH, s[from..]).blocks + [Feed(FRESH, s[from..]).rest]
    decreases |s| - from
  {
    var i := FirstSeparator(s, from);
    if i == |s| {
      OnlyPart(s, from);
    } else {
      var head := s[from..i];
      var tail := s[i + 2..];
      JsSplitIsFeed(s, i + 2);
      SliceIsPlain(s, from, i, i + 1);
      assert s[from..i + 1] == head + "\n";
      FeedFirstBlock(head, tail);
      var whole, joined := s[from..], head + "\n\n" + tail;
      assert whole == joined;
      JsSplitStep(s, from);
      var st, feed := Feed(FRESH, tail), Feed(FRESH, whole);
      assert feed == Splitter([head] + st.blocks, st.rest);
      FirstPart(JsSplit(s, from), JsSplit(s, i + 2), head, st, feed);
    }
  }

  lemma {:induction false} FirstPart(parts: seq<string>, rest: seq<string>, head: string, st: Splitter, whole: Splitter)
    requires parts == [head] + rest && rest == st.blocks + [st.rest]
    requires whole == Splitter([head] + st.blocks, st.rest)
    ensures parts == whole.blocks + [whole.rest]
  {
  }

  lemma {:induction false} SliceIsPlain(s: string, from: nat, i: nat, to: nat)
    requires from <= i <= |s| && i <= to <= i + 1 && to <= |s|
    requires forall m :: from <= m < i ==> !SeparatorAt(s, m)
    ensures NoSeparator(s[from..to])
  {
    forall j: nat | j < to - from
      ensures !SeparatorAt(s[from..to], j)
    {
      if from + j < i {
        assert !SeparatorAt(s, from + j);
      }
    }
  }

  /**
   Carrying the unfinished block over from one read to the next gives the same blocks
   as splitting everything at once, wherever the text is cut.
   */
  lemma {:induction false} CarriedBuffer(before: string, chunk: string)
    ensures var was := Feed(FRESH, before);
      var parts := JsSplit(was.rest + chunk);
      Feed(FRESH, before + chunk) == Splitter(was.blocks + parts[..|parts| - 1], parts[|parts| - 1])
  {
    var was := Feed(FRESH, before);
    RestIsPlain(before);
    FeedPlain([], was.rest);
    FeedAppend(FRESH, before, chunk);
    FeedAppend(FRESH, was.rest, chunk);
    FeedKeepsBlocks(was.blocks, was.rest, chunk);
    JsSplitIsFeed(was.rest + chunk, 0);
    assert (was.rest + chunk)[0..] == was.rest + chunk;
    var st := Feed(FRESH, was.rest + chunk);
    assert (st.blocks + [st.rest])[..|st.blocks|] == st.blocks;
  }

  // ----- one block --------------------------------------------------------

  /** What "." does not match and "^", "$" stop at in a multiline regular expression. */
  predicate IsLineTerminator(c: char) {
    c == '\n' || c == '\r' || c == '\U{2028}' || c == '\U{2029}'
  }

  predicate OneLine(s: string) {
    forall c :: c in s ==> !IsLineTerminator(c)
  }

  /** The end of the line that contains position i. */
  function LineTo(s: string, i: nat): (e: nat)
    requires i <= |s|
    ensures i <= e <= |s|
    ensures forall m :: i <= m < e ==> !IsLineTerminator(s[m])
    ensures e < |s| ==> IsLineTerminator(s[e])
    decreases |s| - i
  {
    if i == |s| || IsLineTerminator(s[i]) then i else LineTo(s, i + 1)
  }

  /** block.match(/^<prefix>(.+)$/m)?.[1], looking from the line that starts at i. */
  function Field(prefix: string, block: string, i: nat := 0): Option<string>
    requires i <= |block|
    decreases |block| - i
  {
    var e := LineTo(block, i);
    if |prefix| < e - i && block[i..i + |prefix|] == prefix then Some(block[i + |prefix|..e])
    else if e == |block| then None
    else Field(prefix, block, e + 1)
  }

  function ParseBlock(block: string): Option<Event> {
    match (Field("event: ", block), Field("data: ", block))
    case (Some(name), Some(data)) => Some(Event(name, data))
    case _ => None
  }

  /** [i, e) is a line of the block that starts with the prefix and goes on after it. */
  predicate LineMatches(prefix: string, block: string, i: nat, e: nat) {
    && i + |prefix| < e <= |block|
    && (i == 0 || IsLineTerminator(block[i - 1]))
    && (e == |block| || IsLineTerminator(block[e]))
    && (forall m :: i <= m < e ==> !IsLineTerminator(block[m]))
    && block[i..i + |prefix|] == prefix
  }

  /** No line of the block from position i to before position j matches. */
  ghost predicate NoLineMatches(prefix: string, block: string, i: nat, j: nat) {
    forall k: nat, m: nat :: i <= k < j ==> !LineMatches(prefix, block, k, m)
  }

  /** The value is what follows the prefix on the first line that matches. */
  ghost predicate FirstMatch(prefix: string, block: string, i: nat, j: nat, e: nat, value: string) {
    i <= j && LineMatches(prefix, block, j, e) && NoLineMatches(prefix, block, i, j) && value == block[j + |prefix|..e]
  }

  /** What the first line that matches holds, or None when none does. */
  ghost predicate IsField(prefix: string, block: string, i: nat, field: Option<string>) {
    match field
    case None => NoLineMatches(prefix, block, i, |block| + 1)
    case Some(value) => exists j: nat, e: nat :: FirstMatch(prefix, block, i, j, e, value)
  }

  lemma {:induction false} LaterLines(prefix: string, block: string, i: nat, j: nat, field: Option<string>)
    requires i <= j && NoLineMatches(prefix, block, i, j) && IsField(prefix, block, j, field)
    ensures IsField(prefix, block, i, field)
  {
    if field.Some? {
      var k: nat, n: nat :| FirstMatch(prefix, block, j, k, n, field.value);
      assert FirstMatch(prefix, block, i, k, n, field.value);
    }
  }

  /** match() on a block finds what follows the prefix on the first line that matches. */
  lemma {:induction false} FieldIs(prefix: string, block: string, i: nat)
    requires i <= |block| && (i == 0 || IsLineTerminator(block[i - 1]))
    ensures IsField(prefix, block, i, Field(prefix, block, i))
    decreases |block| - i
  {
    var e := LineTo(block, i);
    OneLineAtATime(prefix, block, i);
    if LineMatches(prefix, block, i, e) {
      assert Field(prefix, block, i) == Some(block[i + |prefix|..e]);
      assert FirstMatch(prefix, block, i, i, e, block[i + |prefix|..e]);
    } else if e < |block| {
      FieldIs(prefix, block, e + 1);
      LaterLines(prefix, block, i, e + 1, Field(prefix, block, e + 1));
    }
  }

  /** The only line that starts before the end of the line at i is that line. */
  lemma {:induction false} OneLineAtATime(prefix: string, block: string, i: nat)
    requires i <= |block|
    ensures forall k: nat, m: nat :: i <= k <= LineTo(block, i) && LineMatches(prefix, block, k, m) ==>
      k == i && m == LineTo(block, i)
  {
  }

  /** An event the server prints: json.dumps and the stage names never contain a line terminator. */
  predicate Printable(e: Event) {
    e.name != "" && OneLine(e.name) && e.data != "" && OneLine(e.data)
  }

  lemma {:induction false} LineToIs(s: string, i: nat, e: nat)
    requires i <= e <= |s| && (e == |s| || IsLineTerminator(s[e]))
    requires forall m :: i <= m < e ==> !IsLineTerminator(s[m])
    ensures LineTo(s, i) == e
  {
  }

  lemma {:induction false} BlockShape(e: Event)
    requires Printable(e)
    ensures var b, n := Block(e), 7 + |e.name|;
      && |b| == n + 7 + |e.data|
      && LineTo(b, 0) == n
      && LineTo(b, n + 1) == |b|
      && b[0..7] == "event: " && b[7..n] == e.name
      && b[n] == '\n'
      && b[n + 1..n + 7] == "data: " && b[n + 7..|b|] == e.data
  {
    var b, n := Block(e), 7 + |e.name|;
    assert b[0..7] == "event: " && b[7..n] == e.name;
    assert b[n + 1..n + 7] == "data: " && b[n + 7..|b|] == e.data;
    forall m | 0 <= m < n
      ensures !IsLineTerminator(b[m])
    {
      assert m < 7 ==> b[m] == "event: "[m];
      assert m >= 7 ==> b[m] == e.name[m - 7];
    }
    LineToIs(b, 0, n);
    forall m | n + 1 <= m < |b|
      ensures !IsLineTerminator(b[m])
    {
      assert m < n + 7 ==> b[m] == "data: "[m - n - 1];
      assert m >= n + 7 ==> b[m] == e.data[m - n - 7];
    }
    LineToIs(b, n + 1, |b|);
  }

  /** Reading back what was printed. */
  lemma {:induction false} ParsePrinted(e: Event)
    requires Printable(e)
    ensures ParseBlock(Block(e)) == Some(e)
  {
    var b, n := Block(e), 7 + |e.name|;
    BlockShape(e);
    assert Field("event: ", b, 0) == Some(e.name);
    assert b[0..6] != "data: " by { assert b[0] == b[0..7][0] == 'e'; }
    assert Field("data: ", b, n + 1) == Some(e.data);
    assert Field("data: ", b, 0) == Field("data: ", b, n + 1);
  }

  lemma {:induction false} BlockHasNoSeparator(e: Event)
    requires Printable(e)
    ensures NoSeparator(Block(e) + "\n")
  {
    var b, n := Block(e), 7 + |e.name|;
    BlockShape(e);
    forall i: nat | i < |b| + 1
      ensures !SeparatorAt(b + "\n", i)
    {
      if i < n {
        assert !IsLineTerminator(b[i]);
      } else if i == n {
        assert b[n + 1] == b[n + 1..n + 7][0] == 'd';
      } else if i < |b| {
        assert !IsLineTerminator(b[i]);
      }
    }
  }

  function Blocks(events: seq<Event>): seq<string> {
    if events == [] then [] else Blocks(events[..|events| - 1]) + [Block(events[|events| - 1])]
  }

  /** The printed stream splits into one block per event and nothing left over. */
  lemma {:induction false} FeedPrinted(events: seq<Event>)
    requires forall e :: e in events ==> Printable(e)
    ensures Feed(FRESH, Print(events)) == Splitter(Blocks(events), "")
  {
    if events != [] {
      var before, e := events[..|events| - 1], events[|events| - 1];
      FeedPrinted(before);
      FeedAppend(FRESH, Print(before), PrintOne(e));
      BlockHasNoSeparator(e);
      FeedCloses(Blocks(before), Block(e));
    }
  }

  // ----- the client -------------------------------------------------------

  datatype Outcome<J> = Resolved(value: J) | Rejected(detail: J) | BadJson | EndedEarly

  /** The client between blocks: still reading, or settled for good. */
  datatype Client<J> =
    | Reading(calls: seq<(string, J)>)
    | Settled(calls: seq<(string, J)>, outcome: Outcome<J>)

  function Handle<J>(client: Client<J>, block: string, parse: string -> Option<J>): Client<J> {
    if client.Settled? then client
    else
      match ParseBlock(block)
      case None => client
      case Some(e) =>
        match parse(e.data)
        case None => Settled(client.calls, BadJson)
        case Some(data) =>
          var calls := client.calls + [(e.name, data)];
          if e.name == "succeeded" then Settled(calls, Resolved(data))
          else if e.name == "failed" then Settled(calls, Rejected(data))
          else Reading(calls)
  }

  /** The end of the response while still reading is an error of its own. */
  function AtEnd<J>(client: Client<J>): Client<J> {
    if client.Settled? then client else Settled(client.calls, EndedEarly)
  }

  /**
   One block, for a client that is still reading: without both fields it is skipped; a payload
   that is no JSON ends the stream with an error and no call; any other is handed on, and
   settles the promise when its name says so.
   */
  lemma {:induction false} BlockCases<J>(client: Client<J>, block: string, parse: string -> Option<J>)
    requires client.Reading?
    ensures var after, name, data := Handle(client, block, parse), Field("event: ", block), Field("data: ", block);
      if name.None? || data.None? then after == client
      else
        match parse(data.value)
        case None => after.Settled? && after.calls == client.calls && after.outcome.BadJson?
        case Some(value) =>
          && after.calls == client.calls + [(name.value, value)]
          && (after.Settled? <==> name.value in {"succeeded", "failed"})
          && (name.value == "succeeded" ==> after.outcome == Resolved(value))
          && (name.value == "failed" ==> after.outcome == Rejected(value))
    ensures AtEnd(client) == Settled(client.calls, EndedEarly)
  {
  }

  function HandleAll<J>(client: Client<J>, blocks: seq<string>, parse: string -> Option<J>): Client<J> {
    if blocks == [] then client
    else Handle(HandleAll(client, blocks[..|blocks| - 1], parse), blocks[|blocks| - 1], parse)
  }

  lemma {:induction false} SettledForGood<J>(client: Client<J>, blocks: seq<string>, parse: string -> Option<J>)
    requires client.Settled?
    ensures HandleAll(client, blocks, parse) == client
  {
    if blocks != [] {
      SettledForGood(client, blocks[..|blocks| - 1], parse);
    }
  }

  lemma {:induction false} HandleAppend<J>(
    client: Client<J>, a: seq<string>, b: seq<string>, parse: string -> Option<J>)
    ensures HandleAll(client, a + b, parse) == HandleAll(HandleAll(client, a, parse), b, parse)
  {
    if b == [] {
      assert a + b == a;
    } else {
      assert (a + b)[..|a + b| - 1] == a + b[..|b| - 1];
      HandleAppend(client, a, b[..|b| - 1], parse);
    }
  }

  function Concat(received: seq<string>): string {
    if received == [] then "" else Concat(received[..|received| - 1]) + received[|received| - 1]
  }

  /** The text received so far decides what the client has done so far. */
  function After<J>(text: string, parse: string -> Option<J>): Client<J> {
    HandleAll(Reading([]), Feed(FRESH, text).blocks, parse)
  }

  lemma {:induction false} ConcatAppend(a: seq<string>, b: seq<string>)
    ensures Concat(a + b) == Concat(a) + Concat(b)
  {
    if b == [] {
      assert a + b == a;
    } else {
      assert (a + b)[..|a + b| - 1] == a + b[..|b| - 1];
      ConcatAppend(a, b[..|b| - 1]);
      assert Concat(a) + (Concat(b[..|b| - 1]) + b[|b| - 1]) == (Concat(a) + Concat(b[..|b| - 1])) + b[|b| - 1];
    }
  }

  /** Once settled, later text changes nothing: the promise is returned or rejected. */
  lemma {:induction false} SettledText<J>(a: string, b: string, parse: string -> Option<J>)
    requires After(a, parse).Settled?
    ensures After(a + b, parse) == After(a, parse)
  {
    var st := Feed(FRESH, a);
    FeedAppend(FRESH, a, b);
    FeedKeepsBlocks(st.blocks, st.rest, b);
    var more := Feed(Splitter([], st.rest), b).blocks;
    HandleAppend(Reading([]), st.blocks, more, parse);
    SettledForGood(After(a, parse), more, parse);
  }

  /** streamResearch's for loop over the blocks one read completes. */
  method HandleBlocks<J>(start: Client<J>, blocks: seq<string>, parse: string -> Option<J>) returns (client: Client<J>)
    requires start.Reading?
    ensures client == HandleAll(start, blocks, parse)
  {
    client := start;
    for k := 0 to |blocks|
      invariant client == HandleAll(start, blocks[..k], parse)
      invariant client.Reading?
    {
      assert blocks[..k + 1][..k] == blocks[..k];
      client := Handle(client, blocks[k], parse);
      if client.Settled? {
        assert blocks == blocks[..k + 1] + blocks[k + 1..];
        HandleAppend(start, blocks[..k + 1], blocks[k + 1..], parse);
        SettledForGood(client, blocks[k + 1..], parse);
        return;
      }
    }
    assert blocks[..|blocks|] == blocks;
  }

  /** One read: append to the buffer, split, keep the last part, handle the others. */
  method HandleRead<J>(start: Client<J>, carried: string, value: string, ghost text: string, parse: string -> Option<J>)
    returns (client: Client<J>, buffer: string)
    requires start.Reading? && start == After(text, parse) && carried == Feed(FRESH, text).rest
    ensures client == After(text + value, parse)
    ensures buffer == Feed(FRESH, text + value).rest
  {
    CarriedBuffer(text, value);
    var parts := JsSplit(carried + value);
    buffer := parts[|parts| - 1];
    var blocks := parts[..|parts| - 1];
    HandleAppend(Reading([]), Feed(FRESH, text).blocks, blocks, parse);
    client := HandleBlocks(start, blocks, parse);
  }

  lemma {:induction false} ReadStep<J>(received: seq<string>, k: nat, parse: string -> Option<J>)
    requires k < |received|
    ensures Concat(received[..k + 1]) == Concat(received[..k]) + received[k]
    ensures After(Concat(received[..k + 1]), parse).Settled? ==>
      After(Concat(received), parse) == After(Concat(received[..k + 1]), parse)
  {
    assert received[..k + 1][..k] == received[..k];
    assert received == received[..k + 1] + received[k + 1..];
    ConcatAppend(received[..k + 1], received[k + 1..]);
    if After(Concat(received[..k + 1]), parse).Settled? {
      SettledText(Concat(received[..k + 1]), Concat(received[k + 1..]), parse);
    }
  }

  /** streamResearch. The last iteration is the one whose read reports done and carries no text. */
  method StreamResearch<J>(received: seq<string>, parse: string -> Option<J>) returns (client: Client<J>)
    ensures client == AtEnd(After(Concat(received), parse))
  {
    client := Reading([]);
    var buffer := "";
    var k := 0;
    while true
      invariant 0 <= k <= |received|
      invariant client.Reading? && client == After(Concat(received[..k]), parse)
      invariant buffer == Feed(FRESH, Concat(received[..k])).rest
      decreases |received| - k
    {
      ghost var text := Concat(received[..k]);
      if k == |received| {
        client, buffer := HandleRead(client, buffer, "", text, parse);
        assert received[..k] == received && text + "" == text;
        return AtEnd(client);
      }
      ReadStep(received, k, parse);
      client, buffer := HandleRead(client, buffer, received[k], text, parse);
      k := k + 1;
      if client.Settled? {
        return;
      }
    }
  }

  // ----- the round trip ---------------------------------------------------

  predicate Terminal(e: Event) {
    e.name == "succeeded" || e.name == "failed"
  }

  /** The position of the first terminal event, or the length when there is none. */
  function FirstTerminal(events: seq<Event>): (n: nat)
    ensures n <= |events|
    ensures n < |events| ==> Terminal(events[n])
    ensures forall i :: 0 <= i < n ==> !Terminal(events[i])
  {
    if events == [] then 0
    else
      var m := FirstTerminal(events[..|events| - 1]);
      if m < |events| - 1 || Terminal(events[|events| - 1]) then m else |events|
  }

  predicate Readable<J>(e: Event, parse: string -> Option<J>) {
    Printable(e) && parse(e.data).Some?
  }

  predicate AllReadable<J>(events: seq<Event>, parse: string -> Option<J>) {
    forall e :: e in events ==> Readable(e, parse)
  }

  function Decoded<J>(events: seq<Event>, parse: string -> Option<J>): seq<(string, J)>
    requires AllReadable(events, parse)
  {
    if events == [] then []
    else
      var e := events[|events| - 1];
      assert Readable(e, parse);
      Decoded(events[..|events| - 1], parse) + [(e.name, parse(e.data).value)]
  }

  function Expected<J>(events: seq<Event>, parse: string -> Option<J>): Client<J>
    requires AllReadable(events, parse)
  {
    var n := FirstTerminal(events);
    if n == |events| then Reading(Decoded(events, parse))
    else
      assert Readable(events[n], parse);
      var data := parse(events[n].data).value;
      Settled(Decoded(events[..n + 1], parse), if events[n].name == "succeeded" then Resolved(data) else Rejected(data))
  }

  /** What the client is expected to have done after one more event. */
  lemma {:induction false} ExpectedPush<J>(before: seq<Event>, e: Event, parse: string -> Option<J>)
    requires AllReadable(before, parse) && Readable(e, parse) && AllReadable(before + [e], parse)
    ensures FirstTerminal(before) < |before| ==> Expected(before + [e], parse) == Expected(before, parse)
    ensures FirstTerminal(before) == |before| ==>
      var calls, data := Decoded(before, parse) + [(e.name, parse(e.data).value)], parse(e.data).value;
      Expected(before + [e], parse)
      == (if e.name == "succeeded" then Settled(calls, Resolved(data))
          else if e.name == "failed" then Settled(calls, Rejected(data)) else Reading(calls))
  {
    var events := before + [e];
    assert events[..|before|] == before;
    var n := FirstTerminal(before);
    if n < |before| {
      assert events[..n + 1] == before[..n + 1];
    } else {
      assert events[..|before| + 1] == events;
    }
  }

  lemma {:induction false} HandlePrinted<J>(before: seq<Event>, e: Event, parse: string -> Option<J>)
    requires AllReadable(before, parse) && Readable(e, parse) && AllReadable(before + [e], parse)
    ensures Handle(Expected(before, parse), Block(e), parse) == Expected(before + [e], parse)
  {
    ParsePrinted(e);
    ExpectedPush(before, e, parse);
  }

  lemma {:induction false} HandlesPrinted<J>(events: seq<Event>, parse: string -> Option<J>)
    requires AllReadable(events, parse)
    ensures HandleAll(Reading([]), Blocks(events), parse) == Expected(events, parse)
  {
    if events != [] {
      var before, e := events[..|events| - 1], events[|events| - 1];
      assert e in events && events == before + [e];
      HandlesPrinted(before, parse);
      var blocks := Blocks(events);
      assert blocks[..|blocks| - 1] == Blocks(before) && blocks[|blocks| - 1] == Block(e);
      HandlePrinted(before, e, parse);
    }
  }

  /** What the printed stream makes a client do that handles its blocks. */
  lemma {:induction false} StreamRoundTrip<J>(events: seq<Event>, received: seq<string>, parse: string -> Option<J>)
    requires AllReadable(events, parse) && Concat(received) == Print(events)
    ensures AtEnd(After(Concat(received), parse)) == AtEnd(Expected(events, parse))
  {
    assert forall e :: e in events ==> Readable(e, parse);
    FeedPrinted(events);
    HandlesPrinted(events, parse);
  }

  /**
   However the network cuts the printed stream into reads, inside a separator or a name or
   anywhere else, streamResearch with its carried buffer reports the server's events in
   order up to and including the first terminal one, and settles accordingly.
   */
  method ReceivePrinted<J>(ghost events: seq<Event>, received: seq<string>, parse: string -> Option<J>)
    returns (client: Client<J>)
    requires AllReadable(events, parse) && Concat(received) == Print(events)
    ensures client == AtEnd(Expected(events, parse))
  {
    client := StreamResearch(received, parse);
    StreamRoundTrip(events, received, parse);
  }
}
