/** The `send_message` stream relay of AI/app.js: the model server answers
    with newline-delimited JSON, delivered in chunks. Each chunk is split on
    "\n", blank lines are dropped, each remaining line is decoded on its own
    (a line that does not parse is ignored), and every decoded object with a
    non-empty `response` extends the running text by that fragment, counts one
    token and emits `message_streaming` with the text so far. A `done` object
    emits `message_completed` with the text and the statistics. JSON decoding
    is the parameter `parse`. */
module ChatStream {
  import opened Common
  import opened Strings

  /** One decoded line: either it did not parse, or the object's `response`
      field (the empty string when absent or falsy) and its `done` flag. */
  datatype Line = Malformed | Obj(response: string, done: bool)

  datatype Stats = Stats(tokens: nat, duration: int)

  /** The payload of `message_completed`. */
  datatype Reply = Reply(content: string, stats: Stats)

  /** The socket events the chat server emits. */
  datatype Event =
    | ErrorEvent(message: string)
    | TokenLimitExceeded
    | MessageStreaming(responseId: string, content: string)
    | MessageCompleted(reply: Reply)
    | ChatLoaded(chatId: string, chatData: ChatRecord, chatList: map<string, ChatSummary>)
    | ChatCreated(chatId: string)
    | ChatDeleted(chatId: string)
    | ChatReset

  datatype Role = UserRole | AssistantRole

  datatype Message = Message(role: Role, content: string, stats: Option<Stats>)

  /** A stored conversation under the key `${user}_${chatId}`. */
  datatype ChatRecord = ChatRecord(
    messages: seq<Message>,
    name: Option<string>,
    createdAt: Option<string>,
    updatedAt: Option<string>)

  /** One entry of the side-bar chat list. */
  datatype ChatSummary = ChatSummary(id: string, name: string, updatedAt: string)

  /** The relay's running state: `fullResponse`, `tokenCount` and the events
      emitted so far. */
  datatype Relay = Relay(text: string, tokens: nat, events: seq<Event>)

  /** The lines of one chunk that survive `filter(line => line.trim())`. */
  function ChunkLines(chunk: string): (r: seq<string>)
    ensures forall l :: l in r ==> !IsBlank(l) && '\n' !in l
    ensures forall l :: l in r <==> l in Split(chunk, '\n') && !IsBlank(l)
  {
    Filter(Split(chunk, '\n'), (l: string) => !IsBlank(l))
  }

  /** The lines of two pieces joined by a line feed are the lines of the
      first piece followed by those of the second, so the kept lines keep
      their order. */
  lemma ChunkLinesAppend(a: string, b: string)
    ensures ChunkLines(a + "\n" + b) == ChunkLines(a) + ChunkLines(b)
  {
    SplitAppend(a, '\n', b);
    FilterAppend(Split(a, '\n'), Split(b, '\n'), (l: string) => !IsBlank(l));
  }

  /** Every decoded line of the stream, chunk after chunk. */
  function Decode(chunks: seq<string>, parse: string -> Line): seq<Line> {
    if chunks == [] then []
    else Decode(chunks[..|chunks| - 1], parse) + Map(ChunkLines(chunks[|chunks| - 1]), parse)
  }

  /** The effect of one decoded line on the relay: the text and the events
      only grow, and a token is counted exactly when the text grows. */
  function Step(st: Relay, line: Line, responseId: string, duration: int): (r: Relay)
    ensures StartsWith(r.text, st.text)
    ensures |st.events| <= |r.events| && r.events[..|st.events|] == st.events
    ensures st.tokens <= r.tokens <= st.tokens + 1
    ensures r.tokens == st.tokens <==> r.text == st.text
  {
    match line
    case Malformed => st
    case Obj(response, done) =>
      var st' :=
        if response != "" then
          Relay(st.text + response, st.tokens + 1,
                st.events + [MessageStreaming(responseId, st.text + response)])
        else st;
      if done then
        st'.(events := st'.events + [MessageCompleted(Reply(st'.text, Stats(st'.tokens, duration)))])
      else st'
  }

  /** The relay state after the given lines, starting from `fullResponse = ''`
      and `tokenCount = 0`. */
  function Run(lines: seq<Line>, responseId: string, duration: int): Relay {
    if lines == [] then Relay("", 0, [])
    else Step(Run(lines[..|lines| - 1], responseId, duration), lines[|lines| - 1], responseId, duration)
  }

  // ---------------------------------------------------------------------
  // Independent descriptions of what the relay produces

  /** The non-empty `response` fragments, in stream order. */
  function Fragments(lines: seq<Line>): seq<string> {
    if lines == [] then []
    else
      var last := lines[|lines| - 1];
      Fragments(lines[..|lines| - 1]) + (if last.Obj? && last.response != "" then [last.response] else [])
  }

  function Concat(fs: seq<string>): string {
    if fs == [] then "" else Concat(fs[..|fs| - 1]) + fs[|fs| - 1]
  }

  /** The cumulative texts `fs[0]`, `fs[0] + fs[1]`, ... */
  function Prefixes(fs: seq<string>): seq<string> {
    if fs == [] then [] else Prefixes(fs[..|fs| - 1]) + [Concat(fs)]
  }

  /** The contents of the `message_streaming` events, in order. */
  function Streamed(events: seq<Event>): seq<string> {
    if events == [] then []
    else
      var last := events[|events| - 1];
      Streamed(events[..|events| - 1]) + (if last.MessageStreaming? then [last.content] else [])
  }

  /** The payloads of the `message_completed` events, in order. */
  function Completions(events: seq<Event>): seq<Reply> {
    if events == [] then []
    else
      var last := events[|events| - 1];
      Completions(events[..|events| - 1]) + (if last.MessageCompleted? then [last.reply] else [])
  }

  /** Number of decoded lines carrying `done`. */
  function DoneCount(lines: seq<Line>): nat {
    if lines == [] then 0
    else
      var last := lines[|lines| - 1];
      DoneCount(lines[..|lines| - 1]) + (if last.Obj? && last.done then 1 else 0)
  }

  lemma StreamedAppend(a: seq<Event>, b: seq<Event>)
    ensures Streamed(a + b) == Streamed(a) + Streamed(b)
    decreases |b|
  {
    if b != [] {
      assert (a + b)[..|a + b| - 1] == a + b[..|b| - 1];
      StreamedAppend(a, b[..|b| - 1]);
    } else {
      assert a + b == a;
    }
  }

  lemma CompletionsAppend(a: seq<Event>, b: seq<Event>)
    ensures Completions(a + b) == Completions(a) + Completions(b)
    decreases |b|
  {
    if b != [] {
      assert (a + b)[..|a + b| - 1] == a + b[..|b| - 1];
      CompletionsAppend(a, b[..|b| - 1]);
    } else {
      assert a + b == a;
    }
  }

  /** `fullResponse` is the concatenation of the fragments, and `tokenCount`
      is their number: one token per non-empty fragment, whatever the
      fragment's length. */
  lemma {:induction false} RunText(lines: seq<Line>, responseId: string, duration: int)
    ensures Run(lines, responseId, duration).text == Concat(Fragments(lines))
    ensures Run(lines, responseId, duration).tokens == |Fragments(lines)|
  {
    if lines != [] {
      var init := lines[..|lines| - 1];
      RunText(init, responseId, duration);
      var fs := Fragments(init);
      var last := lines[|lines| - 1];
      if last.Obj? && last.response != "" {
        assert (fs + [last.response])[..|fs|] == fs;
      } else {
        assert Fragments(lines) == fs;
      }
    }
  }

  /** Each `message_streaming` event carries the cumulative text, not the
      fragment: the k-th one carries the first k+1 fragments joined. */
  lemma {:induction false} StreamedAreCumulative(lines: seq<Line>, responseId: string, duration: int)
    ensures Streamed(Run(lines, responseId, duration).events) == Prefixes(Fragments(lines))
  {
    if lines != [] {
      var init := lines[..|lines| - 1];
      var last := lines[|lines| - 1];
      var st := Run(init, responseId, duration);
      StreamedAreCumulative(init, responseId, duration);
      RunText(init, responseId, duration);
      var fs := Fragments(init);
      var st' := if last.Obj? && last.response != "" then
          Relay(st.text + last.response, st.tokens + 1,
                st.events + [MessageStreaming(responseId, st.text + last.response)])
        else st;
      if last.Obj? && last.response != "" {
        StreamedAppend(st.events, [MessageStreaming(responseId, st.text + last.response)]);
        assert Streamed([MessageStreaming(responseId, st.text + last.response)]) == [st.text + last.response];
        assert (fs + [last.response])[..|fs|] == fs;
        assert Concat(fs + [last.response]) == st.text + last.response;
        assert Fragments(lines) == fs + [last.response];
      } else {
        assert Fragments(lines) == fs;
      }
      if last.Obj? && last.done {
        var e := MessageCompleted(Reply(st'.text, Stats(st'.tokens, duration)));
        StreamedAppend(st'.events, [e]);
        assert Streamed([e]) == [];
      }
    }
  }

  /** Exactly one `message_completed` per `done` line; when the last line
      is a `done`, the last completion carries the whole text and token
      count (`CompletionsCarryTheirDone` states it for every `done`). */
  lemma {:induction false} CompletionsPerDone(lines: seq<Line>, responseId: string, duration: int)
    ensures |Completions(Run(lines, responseId, duration).events)| == DoneCount(lines)
    ensures lines != [] && lines[|lines| - 1].Obj? && lines[|lines| - 1].done ==>
      var cs := Completions(Run(lines, responseId, duration).events);
      cs[|cs| - 1] == Reply(Concat(Fragments(lines)), Stats(|Fragments(lines)|, duration))
  {
    if lines != [] {
      var init := lines[..|lines| - 1];
      var last := lines[|lines| - 1];
      var st := Run(init, responseId, duration);
      CompletionsPerDone(init, responseId, duration);
      RunText(lines, responseId, duration);
      var st' := if last.Obj? && last.response != "" then
          Relay(st.text + last.response, st.tokens + 1,
                st.events + [MessageStreaming(responseId, st.text + last.response)])
        else st;
      if last.Obj? && last.response != "" {
        var e := MessageStreaming(responseId, st.text + last.response);
        CompletionsAppend(st.events, [e]);
        assert Completions([e]) == [];
      }
      assert Run(lines, responseId, duration).text == st'.text;
      assert Run(lines, responseId, duration).tokens == st'.tokens;
      if last.Obj? && last.done {
        var e := MessageCompleted(Reply(st'.text, Stats(st'.tokens, duration)));
        CompletionsAppend(st'.events, [e]);
        assert Completions([e]) == [e.reply];
      }
    }
  }

  /** Relaying more lines only appends events. */
  lemma {:induction false} RunEventsPrefix(lines: seq<Line>, n: nat, responseId: string, duration: int)
    requires n <= |lines|
    ensures var a, b := Run(lines[..n], responseId, duration).events, Run(lines, responseId, duration).events;
      |a| <= |b| && b[..|a|] == a
    decreases |lines| - n
  {
    if n < |lines| {
      var init := lines[..|lines| - 1];
      assert init[..n] == lines[..n];
      RunEventsPrefix(init, n, responseId, duration);
      var a, m, b := Run(lines[..n], responseId, duration).events, Run(init, responseId, duration).events,
                     Run(lines, responseId, duration).events;
      assert b[..|m|] == m;
      assert b[..|a|] == m[..|a|];
    } else {
      assert lines[..n] == lines;
    }
  }

  /** The `message_completed` of the `done` at position `i` is the
      completion numbered by the `done` lines up to `i`, and carries the
      text and token count accumulated up to and including that line. */
  lemma CompletionAt(lines: seq<Line>, i: nat, responseId: string, duration: int)
    requires i < |lines| && lines[i].Obj? && lines[i].done
    ensures var cs, p := Completions(Run(lines, responseId, duration).events), lines[..i + 1];
      && 0 < DoneCount(p) <= |cs|
      && cs[DoneCount(p) - 1] == Reply(Concat(Fragments(p)), Stats(|Fragments(p)|, duration))
  {
    var p := lines[..i + 1];
    assert p != [] && p[|p| - 1] == lines[i];
    CompletionsPerDone(p, responseId, duration);
    CompletionsPrefix(lines, i + 1, responseId, duration);
  }

  /** The completions after some of the lines are the first ones of the
      completions after all of them. */
  lemma CompletionsPrefix(lines: seq<Line>, n: nat, responseId: string, duration: int)
    requires n <= |lines|
    ensures var a, b := Completions(Run(lines[..n], responseId, duration).events),
                        Completions(Run(lines, responseId, duration).events);
      |a| <= |b| && b[..|a|] == a
  {
    RunEventsPrefix(lines, n, responseId, duration);
    var a, b := Run(lines[..n], responseId, duration).events, Run(lines, responseId, duration).events;
    assert b == a + b[|a|..];
    CompletionsAppend(a, b[|a|..]);
  }

  /** Every `message_completed` carries the text and token count
      accumulated up to and including its own `done` line. */
  lemma CompletionsCarryTheirDone(lines: seq<Line>, responseId: string, duration: int)
    ensures var cs := Completions(Run(lines, responseId, duration).events);
      forall i :: 0 <= i < |lines| && lines[i].Obj? && lines[i].done ==>
        && 0 < DoneCount(lines[..i + 1]) <= |cs|
        && cs[DoneCount(lines[..i + 1]) - 1] ==
             Reply(Concat(Fragments(lines[..i + 1])), Stats(|Fragments(lines[..i + 1])|, duration))
  {
    forall i | 0 <= i < |lines| && lines[i].Obj? && lines[i].done
      ensures var cs := Completions(Run(lines, responseId, duration).events);
        && 0 < DoneCount(lines[..i + 1]) <= |cs|
        && cs[DoneCount(lines[..i + 1]) - 1] ==
             Reply(Concat(Fragments(lines[..i + 1])), Stats(|Fragments(lines[..i + 1])|, duration))
    {
      CompletionAt(lines, i, responseId, duration);
    }
  }

  /** Without a `done` line nothing completes, so nothing is committed. */
  lemma NoDoneNoCompletion(lines: seq<Line>, responseId: string, duration: int)
    requires DoneCount(lines) == 0
    ensures Completions(Run(lines, responseId, duration).events) == []
  {
    CompletionsPerDone(lines, responseId, duration);
  }

  /** Lines are decoded per chunk: a JSON object cut in two by a chunk
      boundary becomes two lines that do not parse, and its fragment is lost,
      while the same bytes in one chunk are relayed. */
  lemma ObjectSplitAcrossChunksIsLost(a: string, b: string, parse: string -> Line,
                                      responseId: string, duration: int)
    requires !IsBlank(a) && !IsBlank(b) && '\n' !in a && '\n' !in b
    requires parse(a) == Malformed && parse(b) == Malformed
    requires parse(a + b).Obj? && parse(a + b).response != ""
    ensures Run(Decode([a, b], parse), responseId, duration).events == []
    ensures Run(Decode([a + b], parse), responseId, duration).text == parse(a + b).response
  {
    DecodeTwoChunks(a, b, parse);
    JoinedIsOneLine(a, b);
    DecodeOneChunk(a + b, parse);
    RunOfOne(parse(a + b), responseId, duration);
    RunOfOne(Malformed, responseId, duration);
    RunSnoc([Malformed], Malformed, responseId, duration);
    assert [Malformed] + [Malformed] == [Malformed, Malformed];
  }

  lemma RunOfOne(line: Line, responseId: string, duration: int)
    ensures Run([line], responseId, duration) == Step(Relay("", 0, []), line, responseId, duration)
  {
    assert [line][..0] == [];
  }

  lemma JoinedIsOneLine(a: string, b: string)
    requires !IsBlank(a) && '\n' !in a && '\n' !in b
    ensures !IsBlank(a + b) && '\n' !in a + b
  {
    var k :| 0 <= k < |a| && !IsWhitespace(a[k]);
    assert (a + b)[k] == a[k];
  }

  lemma DecodeOneChunk(a: string, parse: string -> Line)
    requires !IsBlank(a) && '\n' !in a
    ensures Decode([a], parse) == [parse(a)]
  {
    ChunkOfOneLine(a);
    assert [a][..0] == [];
  }

  lemma DecodeTwoChunks(a: string, b: string, parse: string -> Line)
    requires !IsBlank(a) && !IsBlank(b) && '\n' !in a && '\n' !in b
    ensures Decode([a, b], parse) == [parse(a), parse(b)]
  {
    DecodeOneChunk(a, parse);
    ChunkOfOneLine(b);
    assert [a, b][..1] == [a];
  }

  lemma ChunkOfOneLine(l: string)
    requires !IsBlank(l) && '\n' !in l
    ensures ChunkLines(l) == [l]
  {
    SplitNoSeparator(l, '\n');
  }

  lemma RunSnoc(prev: seq<Line>, line: Line, responseId: string, duration: int)
    ensures Run(prev + [line], responseId, duration) == Step(Run(prev, responseId, duration), line, responseId, duration)
  {
    assert (prev + [line])[..|prev|] == prev;
  }

  lemma MapSnoc(xs: seq<string>, j: nat, parse: string -> Line)
    requires j < |xs|
    ensures Map(xs[..j + 1], parse) == Map(xs[..j], parse) + [parse(xs[j])]
  {
    var a, b := Map(xs[..j + 1], parse), Map(xs[..j], parse) + [parse(xs[j])];
    assert |a| == |b|;
    forall k | 0 <= k < |a| ensures a[k] == b[k] {
      if k < j {
        assert xs[..j + 1][k] == xs[..j][k];
      }
    }
  }

  lemma DecodeSnoc(chunks: seq<string>, i: nat, parse: string -> Line)
    requires i < |chunks|
    ensures Decode(chunks[..i + 1], parse) == Decode(chunks[..i], parse) + Map(ChunkLines(chunks[i]), parse)
  {
    assert chunks[..i + 1][..i] == chunks[..i];
  }

  /** The body of the per-line callback: a non-empty `response` is appended
      to `fullResponse`, counted and relayed; `done` completes the reply. */
  method RelayLine(text: string, tokens: nat, events: seq<Event>, line: Line, responseId: string, duration: int)
    returns (text': string, tokens': nat, events': seq<Event>)
    ensures Relay(text', tokens', events') == Step(Relay(text, tokens, events), line, responseId, duration)
  {
    text', tokens', events' := text, tokens, events;
    if line.Obj? {
      if line.response != "" {
        text' := text' + line.response;
        tokens' := tokens' + 1;
        events' := events' + [MessageStreaming(responseId, text')];
      }
      if line.done {
        events' := events' + [MessageCompleted(Reply(text', Stats(tokens', duration)))];
      }
    }
  }

  /** The chunk callback: decode each line of one chunk and update
      `fullResponse`, `tokenCount` and the emitted events. */
  method RelayChunk(text: string, tokens: nat, events: seq<Event>, ghost before: seq<Line>,
                    lines: seq<string>, parse: string -> Line, responseId: string, duration: int)
    returns (text': string, tokens': nat, events': seq<Event>)
    requires Relay(text, tokens, events) == Run(before, responseId, duration)
    ensures Relay(text', tokens', events') == Run(before + Map(lines, parse), responseId, duration)
  {
    text', tokens', events' := text, tokens, events;
    var j := 0;
    assert before + Map(lines[..0], parse) == before;
    while j < |lines|
      invariant 0 <= j <= |lines|
      invariant Relay(text', tokens', events') == Run(before + Map(lines[..j], parse), responseId, duration)
    {
      ghost var prev := before + Map(lines[..j], parse);
      var line := parse(lines[j]);
      text', tokens', events' := RelayLine(text', tokens', events', line, responseId, duration);
      MapSnoc(lines, j, parse);
      assert before + Map(lines[..j + 1], parse) == prev + [line];
      RunSnoc(prev, line, responseId, duration);
      j := j + 1;
    }
    assert lines[..j] == lines;
  }

  /** The whole relay: every chunk in arrival order, each split into its
      non-blank lines. */
  method RelayStream(chunks: seq<string>, parse: string -> Line, responseId: string, duration: int)
    returns (text: string, tokens: nat, events: seq<Event>)
    ensures Relay(text, tokens, events) == Run(Decode(chunks, parse), responseId, duration)
    ensures text == Concat(Fragments(Decode(chunks, parse)))
    ensures tokens == |Fragments(Decode(chunks, parse))|
  {
    text, tokens, events := "", 0, [];
    var i := 0;
    while i < |chunks|
      invariant 0 <= i <= |chunks|
      invariant Relay(text, tokens, events) == Run(Decode(chunks[..i], parse), responseId, duration)
    {
      var lines := ChunkLines(chunks[i]);
      text, tokens, events := RelayChunk(text, tokens, events, Decode(chunks[..i], parse), lines, parse, responseId, duration);
      DecodeSnoc(chunks, i, parse);
      i := i + 1;
    }
    assert chunks[..i] == chunks;
    RunText(Decode(chunks, parse), responseId, duration);
  }
}
