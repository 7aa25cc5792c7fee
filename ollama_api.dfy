/**
 * The client side of the Ollama HTTP API: the newline-delimited JSON
 * framing of a streamed chat reply, the clean-up of a generated title, and
 * the model list. The transport delivers already-decoded text chunks, and
 * JSON parsing is a parameter: `parse(line)` is `None` when `JSON.parse`
 * throws, and otherwise the line's `message.content` (empty when absent).
 */
module Ollama {
  import opened ChatTypes
  import opened Text

  // ---------------------------------------------------------------------
  // streamChatResponse (ollamaAPI.ts:48-137)

  /** The callbacks the stream invokes, in order. */
  datatype Callback = OnData(chunk: string) | OnError(message: string) | OnComplete(finalContent: string)

  /** How the body reader ends once every chunk is read: `done`, or a rejected read. */
  datatype StreamEnd = Done | ReadFailed(message: string)

  const ChunkParseError: string := "Error parsing stream data chunk."
  const FinalParseError: string := "Error parsing final stream data."

  /** The callbacks so far, and whether the stream is still going. */
  datatype Progress = Progress(calls: seq<Callback>, ok: bool)

  /**
   * One line: blank lines are skipped, an unparsable line reports `err`
   * and stops, and a parsed line with content passes it to `onData`.
   */
  function Step(p: Progress, line: string, parse: string -> Option<string>, err: string): Progress {
    if IsBlank(line) then p
    else match parse(line)
      case None => Progress(p.calls + [OnError(err)], false)
      case Some(content) => if content == [] then p else Progress(p.calls + [OnData(content)], true)
  }

  /** The complete lines, in order, until the first that fails to parse. */
  function Feed(lines: seq<string>, parse: string -> Option<string>): Progress {
    if lines == [] then Progress([], true)
    else
      var p := Feed(lines[..|lines| - 1], parse);
      if p.ok then Step(p, lines[|lines| - 1], parse, ChunkParseError) else p
  }

  /** The contents every non-blank line yields, in order. */
  function Fragments(lines: seq<string>, parse: string -> Option<string>): seq<string> {
    if lines == [] then []
    else
      var l := lines[|lines| - 1];
      Fragments(lines[..|lines| - 1], parse)
        + if !IsBlank(l) && parse(l).Some? && parse(l).value != [] then [parse(l).value] else []
  }

  /** The concatenation of every `onData` payload among `calls`. */
  function DataText(calls: seq<Callback>): string {
    if calls == [] then []
    else
      var c := calls[|calls| - 1];
      DataText(calls[..|calls| - 1]) + if c.OnData? then c.chunk else []
  }

  /** The number of chunks read before the abort is seen at the top of the loop. */
  function ReadCount(chunks: seq<string>, abortAt: Option<nat>): nat {
    if abortAt.Some? && abortAt.value <= |chunks| then abortAt.value else |chunks|
  }

  /**
   * The callbacks of a whole stream, stated on the text received as one
   * string: its complete lines are fed in order; a parse failure or a seen
   * abort ends the stream there; a rejected read reports its error; at
   * `done` the remaining partial line is fed and `onComplete` receives
   * every content of the text.
   */
  function StreamCalls(chunks: seq<string>, end: StreamEnd, abortAt: Option<nat>, parse: string -> Option<string>): seq<Callback> {
    var k := ReadCount(chunks, abortAt);
    var parts := Split(Concat(chunks[..k]), '\n');
    var p := Feed(Init(parts), parse);
    if !p.ok || k < |chunks| || abortAt == Some(|chunks|) then p.calls
    else match end
      case ReadFailed(m) => p.calls + [OnError(m)]
      case Done =>
        var q := Step(p, Last(parts), parse, FinalParseError);
        if q.ok then q.calls + [OnComplete(Concat(Fragments(parts, parse)))] else q.calls
  }

  /**
   * The read loop of `streamChatResponse`. Each chunk is appended to the
   * buffer, the buffer is split on newlines, the last piece is kept as the
   * new buffer and the complete lines are handled in order.
   */
  method StreamChatResponse(chunks: seq<string>, end: StreamEnd, abortAt: Option<nat>, parse: string -> Option<string>)
    returns (calls: seq<Callback>)
    ensures calls == StreamCalls(chunks, end, abortAt, parse)
  {
    var accumulated := "";
    var buffer := "";
    calls := [];
    var i := 0;
    while true
      invariant 0 <= i <= |chunks|
      invariant abortAt.Some? ==> abortAt.value >= i
      invariant buffer == Last(Received(chunks, i))
      invariant Feed(Init(Received(chunks, i)), parse) == Progress(calls, true)
      invariant accumulated == DataText(calls)
      decreases |chunks| - i
    {
      if abortAt == Some(i) {
        return;
      }
      if i == |chunks| {
        break;
      }
      NextChunkLines(chunks, i);
      var lines := Split(buffer + chunks[i], '\n');
      buffer := Last(lines);
      var ok;
      calls, accumulated, ok := HandleLines(Init(Received(chunks, i)), Init(lines), parse, calls, accumulated);
      if !ok {
        FailureIsFinal(chunks, end, abortAt, parse, i + 1);
        return;
      }
      i := i + 1;
    }
    assert chunks[..|chunks|] == chunks;
    match end {
      case ReadFailed(m) =>
        calls := calls + [OnError(m)];
      case Done =>
        var ok;
        calls, accumulated, ok := HandleLine(buffer, parse, FinalParseError, calls, accumulated);
        if ok {
          FinalFragments(Received(chunks, i), parse);
          calls := calls + [OnComplete(accumulated)];
        }
    }
  }

  /** The pieces of the text received in the first `i` chunks. */
  function Received(chunks: seq<string>, i: nat): (parts: seq<string>)
    requires i <= |chunks|
  {
    Split(Concat(chunks[..i]), '\n')
  }

  /**
   * The `try` block around one line: `JSON.parse`, then `onData` for a
   * non-empty content; a parse failure reports `err` and stops the stream.
   */
  method HandleLine(line: string, parse: string -> Option<string>, err: string, calls: seq<Callback>, accumulated: string)
    returns (calls': seq<Callback>, accumulated': string, ok: bool)
    requires accumulated == DataText(calls)
    ensures Progress(calls', ok) == Step(Progress(calls, true), line, parse, err)
    ensures accumulated' == DataText(calls')
  {
    calls', accumulated', ok := calls, accumulated, true;
    if !IsBlank(line) {
      var data := parse(line);
      if data.None? {
        calls' := calls + [OnError(err)];
        ok := false;
        assert calls'[..|calls|] == calls;
      } else if data.value != [] {
        calls' := calls + [OnData(data.value)];
        accumulated' := accumulated + data.value;
        assert calls'[..|calls|] == calls;
      }
    }
  }

  /** The `for` loop over the complete lines of one read. */
  method HandleLines(ghost before: seq<string>, lines: seq<string>, parse: string -> Option<string>,
                     calls: seq<Callback>, accumulated: string)
    returns (calls': seq<Callback>, accumulated': string, ok: bool)
    requires Feed(before, parse) == Progress(calls, true) && accumulated == DataText(calls)
    ensures Feed(before + lines, parse) == Progress(calls', ok)
    ensures accumulated' == DataText(calls')
  {
    calls', accumulated' := calls, accumulated;
    assert before + lines[..0] == before;
    for j := 0 to |lines|
      invariant Feed(before + lines[..j], parse) == Progress(calls', true)
      invariant accumulated' == DataText(calls')
    {
      FeedNext(before, lines, j, parse);
      calls', accumulated', ok := HandleLine(lines[j], parse, ChunkParseError, calls', accumulated');
      if !ok {
        FeedStopsAt(before, lines, j + 1, parse);
        return;
      }
    }
    assert lines[..|lines|] == lines;
    ok := true;
  }

  // Lemmas behind the loop

  /** Feeding one more line: nothing once stopped, otherwise one `Step`. */
  lemma FeedSnoc(lines: seq<string>, line: string, parse: string -> Option<string>)
    ensures Feed(lines + [line], parse)
            == if Feed(lines, parse).ok then Step(Feed(lines, parse), line, parse, ChunkParseError) else Feed(lines, parse)
  {
    assert (lines + [line])[..|lines|] == lines;
  }

  /** Feeding line `j` of `lines` after the ones before it. */
  lemma FeedNext(before: seq<string>, lines: seq<string>, j: nat, parse: string -> Option<string>)
    requires j < |lines|
    ensures Feed(before + lines[..j + 1], parse)
            == var p := Feed(before + lines[..j], parse);
               if p.ok then Step(p, lines[j], parse, ChunkParseError) else p
  {
    assert before + lines[..j + 1] == (before + lines[..j]) + [lines[j]];
    FeedSnoc(before + lines[..j], lines[j], parse);
  }

  /** A failure among the first `j` lines is the result of feeding them all. */
  lemma FeedStopsAt(before: seq<string>, lines: seq<string>, j: nat, parse: string -> Option<string>)
    requires j <= |lines| && !Feed(before + lines[..j], parse).ok
    ensures Feed(before + lines, parse) == Feed(before + lines[..j], parse)
  {
    FeedStops(before + lines[..j], lines[j..], parse);
    assert lines[..j] + lines[j..] == lines;
    assert before + lines[..j] + lines[j..] == before + lines;
  }

  /** Once a line fails to parse, later lines change nothing. */
  lemma {:induction false} FeedStops(lines: seq<string>, more: seq<string>, parse: string -> Option<string>)
    requires !Feed(lines, parse).ok
    ensures Feed(lines + more, parse) == Feed(lines, parse)
  {
    if more != [] {
      var init := more[..|more| - 1];
      FeedStops(lines, init, parse);
      FeedSnoc(lines + init, more[|more| - 1], parse);
      assert lines + more == (lines + init) + [more[|more| - 1]];
    } else {
      assert lines + more == lines;
    }
  }

  lemma {:induction false} ConcatAppend(a: seq<string>, b: seq<string>)
    ensures Concat(a + b) == Concat(a) + Concat(b)
  {
    if b != [] {
      var init := b[..|b| - 1];
      ConcatAppend(a, init);
      assert (a + b)[..|a + b| - 1] == a + init;
      assert (a + b)[|a + b| - 1] == b[|b| - 1];
    } else {
      assert a + b == a;
    }
  }

  /**
   * Reading chunk `i` after the text of the chunks before it: the complete
   * lines grow by the complete lines of buffer-plus-chunk, and its last
   * piece is the new buffer.
   */
  lemma NextChunkLines(chunks: seq<string>, i: nat)
    requires i < |chunks|
    ensures var lines := Split(Last(Received(chunks, i)) + chunks[i], '\n');
      && Init(Received(chunks, i + 1)) == Init(Received(chunks, i)) + Init(lines)
      && Last(Received(chunks, i + 1)) == Last(lines)
  {
    assert chunks[..i + 1] == chunks[..i] + [chunks[i]];
    ConcatAppend(chunks[..i], [chunks[i]]);
    assert Concat([chunks[i]]) == chunks[i];
    SplitAppend(Concat(chunks[..i]), chunks[i], '\n');
  }

  /** The complete lines of a prefix of the chunks begin the complete lines of a longer prefix. */
  lemma {:induction false} InitReceivedGrows(chunks: seq<string>, i: nat, k: nat)
    requires i <= k <= |chunks|
    ensures Init(Received(chunks, i)) <= Init(Received(chunks, k))
  {
    if i < k {
      InitReceivedGrows(chunks, i, k - 1);
      NextChunkLines(chunks, k - 1);
    }
  }

  /** A parse failure in the first `i` chunks is where the whole stream ends. */
  lemma FailureIsFinal(chunks: seq<string>, end: StreamEnd, abortAt: Option<nat>, parse: string -> Option<string>, i: nat)
    requires i <= ReadCount(chunks, abortAt)
    requires !Feed(Init(Received(chunks, i)), parse).ok
    ensures StreamCalls(chunks, end, abortAt, parse) == Feed(Init(Received(chunks, i)), parse).calls
  {
    var k := ReadCount(chunks, abortAt);
    var a := Init(Received(chunks, i));
    var b := Init(Received(chunks, k));
    InitReceivedGrows(chunks, i, k);
    FeedStops(a, b[|a|..], parse);
    assert a + b[|a|..] == b;
  }

  /**
   * While every line parses, the `onData` payloads are exactly the
   * fragments of the lines, so their concatenation is the text the stream
   * completes with.
   */
  lemma {:induction false} FeedData(lines: seq<string>, parse: string -> Option<string>)
    requires Feed(lines, parse).ok
    ensures DataText(Feed(lines, parse).calls) == Concat(Fragments(lines, parse))
    ensures forall c :: c in Feed(lines, parse).calls ==> c.OnData?
  {
    if lines != [] {
      var init := lines[..|lines| - 1];
      var l := lines[|lines| - 1];
      var p := Feed(init, parse);
      assert p.ok;
      FeedData(init, parse);
      var frag := if !IsBlank(l) && parse(l).Some? && parse(l).value != [] then [parse(l).value] else [];
      ConcatAppend(Fragments(init, parse), frag);
      if frag != [] {
        assert Concat(frag) == parse(l).value;
        assert Feed(lines, parse).calls[..|p.calls|] == p.calls;
      }
    }
  }

  /** The last partial line completes the fragments of the whole text. */
  lemma FinalFragments(parts: seq<string>, parse: string -> Option<string>)
    requires |parts| >= 1 && Feed(Init(parts), parse).ok
    requires Step(Feed(Init(parts), parse), Last(parts), parse, FinalParseError).ok
    ensures var q := Step(Feed(Init(parts), parse), Last(parts), parse, FinalParseError);
      DataText(q.calls) == Concat(Fragments(parts, parse))
  {
    var p := Feed(Init(parts), parse);
    FeedData(Init(parts), parse);
    var l := Last(parts);
    var frag := if !IsBlank(l) && parse(l).Some? && parse(l).value != [] then [parse(l).value] else [];
    assert Fragments(parts, parse) == Fragments(Init(parts), parse) + frag;
    ConcatAppend(Fragments(Init(parts), parse), frag);
    if frag != [] {
      assert Concat(frag) == parse(l).value;
      var q := Step(p, l, parse, FinalParseError);
      assert q.calls[..|p.calls|] == p.calls;
    }
  }

  // Properties of the whole stream

  /**
   * Feeding lines reports only `onData` until a failure, and a failure is
   * a single `onError` with the chunk message, at the end.
   */
  lemma {:induction false} FeedShape(lines: seq<string>, parse: string -> Option<string>)
    ensures var p := Feed(lines, parse);
      && (forall i :: 0 <= i < |p.calls| - 1 ==> p.calls[i].OnData?)
      && (p.ok ==> forall i :: 0 <= i < |p.calls| ==> p.calls[i].OnData?)
      && (!p.ok ==> |p.calls| > 0 && p.calls[|p.calls| - 1] == OnError(ChunkParseError))
  {
    if lines != [] {
      FeedShape(lines[..|lines| - 1], parse);
    }
  }

  /** When every line parses, feeding never stops. */
  lemma {:induction false} FeedAllParse(lines: seq<string>, parse: string -> Option<string>)
    requires forall l :: parse(l).Some?
    ensures Feed(lines, parse).ok
  {
    if lines != [] {
      FeedAllParse(lines[..|lines| - 1], parse);
    }
  }

  /**
   * The stream reports in order: every callback but the last is `onData`,
   * and `onComplete` comes only last, carrying exactly the text that the
   * `onData` calls before it delivered.
   */
  lemma CallbacksInOrder(chunks: seq<string>, end: StreamEnd, abortAt: Option<nat>, parse: string -> Option<string>)
    ensures var c := StreamCalls(chunks, end, abortAt, parse);
      && (forall i :: 0 <= i < |c| - 1 ==> c[i].OnData?)
      && (forall i :: 0 <= i < |c| && c[i].OnComplete? ==> i == |c| - 1 && c[i].finalContent == DataText(c[..i]))
  {
    var parts := Received(chunks, ReadCount(chunks, abortAt));
    var p := Feed(Init(parts), parse);
    FeedShape(Init(parts), parse);
    var c := StreamCalls(chunks, end, abortAt, parse);
    if p.ok && c != p.calls && end.Done? {
      var q := Step(p, Last(parts), parse, FinalParseError);
      if q.ok {
        FinalFragments(parts, parse);
        assert c[..|c| - 1] == q.calls;
      }
    }
  }

  /**
   * Once the abort is seen at the top of the read loop, the stream neither
   * completes nor reports a read error: only data, and possibly a chunk
   * that failed to parse, are reported.
   */
  lemma AbortEndsQuietly(chunks: seq<string>, end: StreamEnd, abortAt: Option<nat>, parse: string -> Option<string>)
    requires abortAt.Some? && abortAt.value <= |chunks|
    ensures forall c :: c in StreamCalls(chunks, end, abortAt, parse) ==> c.OnData? || c == OnError(ChunkParseError)
  {
    var k := abortAt.value;
    assert ReadCount(chunks, abortAt) == k;
    var p := Feed(Init(Received(chunks, k)), parse);
    assert StreamCalls(chunks, end, abortAt, parse) == p.calls;
    FeedShape(Init(Received(chunks, k)), parse);
    forall c | c in p.calls
      ensures c.OnData? || c == OnError(ChunkParseError)
    {
      var j :| 0 <= j < |p.calls| && p.calls[j] == c;
    }
  }

  /**
   * Without an abort, a reader that reaches `done` and a server whose lines
   * all parse make the stream complete with the contents of every line.
   */
  lemma CompletesWhenAllParse(chunks: seq<string>, abortAt: Option<nat>, parse: string -> Option<string>)
    requires abortAt.None? || abortAt.value > |chunks|
    requires forall l :: parse(l).Some?
    ensures var c := StreamCalls(chunks, Done, abortAt, parse);
      && |c| > 0
      && c[|c| - 1] == OnComplete(Concat(Fragments(Received(chunks, |chunks|), parse)))
  {
    assert ReadCount(chunks, abortAt) == |chunks|;
    var parts := Received(chunks, |chunks|);
    FeedAllParse(Init(parts), parse);
    var p := Feed(Init(parts), parse);
    assert parse(Last(parts)).Some?;
    assert Step(p, Last(parts), parse, FinalParseError).ok;
    FinalFragments(parts, parse);
  }

  // ---------------------------------------------------------------------
  // generateTitle (ollamaAPI.ts:146-182)

  /** The characters removed from a generated title: double and single quotes, newline and carriage return. */
  const TitleQuotes: set<char> := {'"', '\'', '\n', '\r'}
  const TitleFallback: string := "Chat"
  const MaxTitleWords: nat := 8
  const TitleInstruction: string := "Generate a very concise title (3-6 words max) for this conversation:\n\nUser: "
  const AssistantLabel: string := "\nAssistant: "
  const ExcerptLength: nat := 200

  /**
   * The prompt sent to `/api/generate`: the instruction, the user's
   * prompt, and the first 200 characters of the reply followed by "...".
   */
  function TitlePrompt(userPrompt: string, assistantResponse: string): (prompt: string)
    ensures |prompt| <= |TitleInstruction| + |userPrompt| + |AssistantLabel| + ExcerptLength + 3
    ensures var head := TitleInstruction + userPrompt + AssistantLabel;
      && head <= prompt
      && |head| + 3 <= |prompt|
      && prompt[|head|..|prompt| - 3] <= assistantResponse
      && (|assistantResponse| <= ExcerptLength ==> prompt == head + assistantResponse + "...")
    ensures |assistantResponse| > ExcerptLength ==>
      |prompt| == |TitleInstruction| + |userPrompt| + |AssistantLabel| + ExcerptLength + 3
    ensures prompt[|prompt| - 3..] == "..."
  {
    var excerpt := if |assistantResponse| <= ExcerptLength then assistantResponse else assistantResponse[..ExcerptLength];
    TitleInstruction + userPrompt + AssistantLabel + excerpt + "..."
  }

  function LowerAscii(c: char): char {
    if 'A' <= c <= 'Z' then (c as int + 32) as char else c
  }

  /** `/^title:/i`: the text starts with "title:" in any mix of case. */
  predicate HasTitleLabel(s: string) {
    |s| >= 6 && forall i :: 0 <= i < 6 ==> LowerAscii(s[i]) == "title:"[i]
  }

  /**
   * The reply after `trim`, the removal of quotes and line breaks, the
   * removal of a leading "title:" and a second `trim`.
   */
  function Cleaned(response: string): string {
    var unquoted := RemoveAll(Trim(response), TitleQuotes);
    Trim(if HasTitleLabel(unquoted) then unquoted[6..] else unquoted)
  }

  /** More than eight words keep the first eight and gain "...". */
  function LimitWords(t: string): string {
    var words := Split(t, ' ');
    if |words| > MaxTitleWords then Join(words[..MaxTitleWords], ' ') + "..." else t
  }

  /** The title made from a reply: `title || 'Chat'` after the clean-up. */
  function CleanTitle(response: string): string {
    var limited := LimitWords(Cleaned(response));
    if limited == [] then TitleFallback else limited
  }

  /** A title is never empty, has no quotes or line breaks, and has at most eight words. */
  lemma TitleShape(response: string)
    ensures var title := CleanTitle(response);
      && title != []
      && Avoids(title, TitleQuotes)
      && |Split(title, ' ')| <= MaxTitleWords
  {
    var t := Cleaned(response);
    CleanedAvoids(response);
    LimitWordsKeeps(t);
    if LimitWords(t) == [] {
      FallbackShape();
    }
  }

  lemma FallbackShape()
    ensures Avoids(TitleFallback, TitleQuotes) && |Split(TitleFallback, ' ')| == 1
  {
    SplitNoSeparator(TitleFallback, ' ');
  }

  /** `generateTitle`: the cleaned reply, or "Chat" when the request or its JSON fails. */
  function GenerateTitle(reply: Option<string>): (title: string)
    ensures title != [] && Avoids(title, TitleQuotes) && |Split(title, ' ')| <= MaxTitleWords
    ensures reply.Some? && Cleaned(reply.value) != [] && |Split(Cleaned(reply.value), ' ')| <= MaxTitleWords
            ==> title == Cleaned(reply.value)
    ensures reply.None? || Cleaned(reply.value) == [] ==> title == TitleFallback
  {
    match reply
    case None => FallbackShape(); TitleFallback
    case Some(r) => TitleShape(r); CleanedAvoids(r); LimitWordsKeeps(Cleaned(r)); CleanTitle(r)
  }

  lemma CleanedAvoids(response: string)
    ensures Avoids(Cleaned(response), TitleQuotes)
  {
    var unquoted := RemoveAll(Trim(response), TitleQuotes);
    var dropped := if HasTitleLabel(unquoted) then unquoted[6..] else unquoted;
    assert Avoids(dropped, TitleQuotes);
    TrimAvoids(dropped, TitleQuotes);
  }

  /**
   * Limiting the words of a text without quotes: the result has no quotes
   * and at most eight words; a longer text keeps its first seven words and
   * the eighth followed by "..."; a shorter one is unchanged.
   */
  lemma LimitWordsKeeps(t: string)
    requires Avoids(t, TitleQuotes)
    ensures var words := Split(t, ' ');
      && Avoids(LimitWords(t), TitleQuotes)
      && (LimitWords(t) == [] <==> t == [])
      && (|words| > MaxTitleWords ==>
            Split(LimitWords(t), ' ') == words[..MaxTitleWords - 1] + [words[MaxTitleWords - 1] + "..."])
      && (|words| <= MaxTitleWords ==> LimitWords(t) == t)
      && |Split(LimitWords(t), ' ')| <= MaxTitleWords
  {
    var words := Split(t, ' ');
    if |words| > MaxTitleWords {
      var kept := words[..MaxTitleWords];
      SplitJoin(kept, ' ');
      SplitAppend(Join(kept, ' '), "...", ' ');
      SplitNoSeparator(kept[MaxTitleWords - 1] + "...", ' ');
      SplitAvoids(t, ' ', TitleQuotes);
      JoinAvoids(kept, ' ', TitleQuotes);
    } else {
      if t == [] {
        assert words == [[]];
      }
    }
  }

  /**
   * A cleaned reply of more than eight words becomes its first seven words
   * and the eighth followed by "...".
   */
  lemma LongTitleTruncated(response: string)
    requires |Split(Cleaned(response), ' ')| > MaxTitleWords
    ensures var words := Split(Cleaned(response), ' ');
      Split(CleanTitle(response), ' ') == words[..MaxTitleWords - 1] + [words[MaxTitleWords - 1] + "..."]
  {
    CleanedAvoids(response);
    LimitWordsKeeps(Cleaned(response));
  }

  // ---------------------------------------------------------------------
  // fetchModels (ollamaAPI.ts:11-31)

  /** In JavaScript's default string order. */
  predicate Sorted(s: seq<string>) {
    forall i, j :: 0 <= i < j < |s| ==> StrLe(s[i], s[j])
  }

  function Insert(x: string, s: seq<string>): seq<string> {
    if s == [] then [x]
    else if StrLe(x, s[0]) then [x] + s
    else [s[0]] + Insert(x, s[1..])
  }

  /** `Array.prototype.sort` without a comparator, as an insertion sort. */
  function SortNames(s: seq<string>): seq<string> {
    if s == [] then [] else Insert(s[0], SortNames(s[1..]))
  }

  /**
   * `data.models.map(m => m.name).sort()`: the model names in order, or
   * none when the reply's `models` is not an array.
   */
  function ModelNames(models: Option<seq<string>>): (names: seq<string>)
    ensures models.None? ==> names == []
    ensures Sorted(names)
    ensures models.Some? ==> multiset(names) == multiset(models.value)
  {
    match models
    case None => []
    case Some(ns) => SortNamesSorts(ns); SortNames(ns)
  }

  lemma {:induction false} InsertPermutes(x: string, s: seq<string>)
    ensures multiset(Insert(x, s)) == multiset(s) + multiset{x}
  {
    if s != [] && !StrLe(x, s[0]) {
      InsertPermutes(x, s[1..]);
      assert s == [s[0]] + s[1..];
    }
  }

  lemma {:induction false} InsertSorts(x: string, s: seq<string>)
    requires Sorted(s)
    ensures Sorted(Insert(x, s))
  {
    if s == [] {
    } else if StrLe(x, s[0]) {
      forall j | 0 <= j < |s| ensures StrLe(x, s[j]) {
        if j > 0 {
          StrLeTransitive(x, s[0], s[j]);
        }
      }
      SortedCons(x, s);
    } else {
      StrLeTotal(x, s[0]);
      var r := Insert(x, s[1..]);
      assert Sorted(s[1..]);
      InsertSorts(x, s[1..]);
      InsertPermutes(x, s[1..]);
      forall j | 0 <= j < |r| ensures StrLe(s[0], r[j]) {
        assert r[j] in multiset(s[1..]) + multiset{x};
        if r[j] != x {
          var k :| 0 <= k < |s[1..]| && s[1..][k] == r[j];
          assert s[k + 1] == r[j];
        }
      }
      SortedCons(s[0], r);
    }
  }

  /** A sorted list stays sorted under a head no greater than any of its names. */
  lemma SortedCons(h: string, r: seq<string>)
    requires Sorted(r) && forall j :: 0 <= j < |r| ==> StrLe(h, r[j])
    ensures Sorted([h] + r)
  {
    var t := [h] + r;
    forall i, j | 0 <= i < j < |t| ensures StrLe(t[i], t[j]) {
      assert t[j] == r[j - 1];
      if i > 0 {
        assert t[i] == r[i - 1];
      }
    }
  }

  lemma {:induction false} SortNamesSorts(s: seq<string>)
    ensures Sorted(SortNames(s))
    ensures multiset(SortNames(s)) == multiset(s)
  {
    if s != [] {
      SortNamesSorts(s[1..]);
      InsertSorts(s[0], SortNames(s[1..]));
      InsertPermutes(s[0], SortNames(s[1..]));
      assert s == [s[0]] + s[1..];
    }
  }

  /**
   * Two sorted arrangements of the same names are equal: whatever the sort
   * algorithm, the model list is the one sorted order of the names.
   */
  lemma {:induction false} SortedUnique(a: seq<string>, b: seq<string>)
    requires Sorted(a) && Sorted(b) && multiset(a) == multiset(b)
    ensures a == b
  {
    if a != [] {
      assert a[0] in multiset(b) && b != [] && b[0] in multiset(a);
      if a[0] != b[0] {
        var i :| 0 <= i < |b| && b[i] == a[0];
        var j :| 0 <= j < |a| && a[j] == b[0];
        assert StrLe(b[0], b[i]) && StrLe(a[0], a[j]);
        StrLeAntisymmetric(a[0], b[0]);
      }
      assert a[0] == b[0];
      SameTail(a, b);
      assert a == [a[0]] + a[1..] && b == [b[0]] + b[1..];
      SortedUnique(a[1..], b[1..]);
    }
  }

  /** Equal multisets with the same head have equal multisets of tails. */
  lemma SameTail(a: seq<string>, b: seq<string>)
    requires a != [] && b != [] && a[0] == b[0] && multiset(a) == multiset(b)
    ensures multiset(a[1..]) == multiset(b[1..])
  {
    assert a == [a[0]] + a[1..] && b == [b[0]] + b[1..];
    assert multiset(a[1..]) == multiset(a) - multiset{a[0]};
    assert multiset(b[1..]) == multiset(b) - multiset{b[0]};
  }
}
