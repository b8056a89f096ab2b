/**
 * The line protocol the chat coach page reads from the coach function's
 * event stream: a text buffer split on "\n", each line stripped of one
 * trailing "\r" and interpreted as a comment, a blank line, a non-data line,
 * the "[DONE]" terminator or a `data: ` payload carrying a content delta.
 *
 * `Drain` and `Feed` follow the page's two nested loops step by step;
 * `CompleteLines` and `Run` are an independent, line-at-a-time reading of the
 * same protocol over the whole received text, and `FeedMatchesRun` proves the
 * two agree whatever the chunk boundaries are.
 */
module ChatStream {
  import opened Wrappers
  import opened JsString

  /**
   * What `JSON.parse(payload)` followed by
   * `parsed.choices?.[0]?.delta?.content` yields: a thrown parse error, or
   * the content field when it is present.
   */
  datatype ParseOutcome = Malformed | Parsed(delta: Option<string>)

  /** `JSON.parse` and the field access, an oracle of the model. */
  type Parser = string -> ParseOutcome

  /** How one line is interpreted. `Delta` texts are never empty. */
  datatype LineEvent = Ignore | Finish | Unparsable | Delta(text: string)

  const DataPrefix: string := "data: "
  const DoneMarker: string := "[DONE]"

  /** Drops one trailing "\r", so that CRLF and LF lines read alike. */
  function StripCR(line: string): (r: string)
    ensures r == line || line == r + "\r"
  {
    if EndsWith(line, "\r") then line[..|line| - 1] else line
  }

  /** Comment lines, blank lines and lines without the `data: ` prefix are skipped. */
  predicate Skipped(line: string) {
    StartsWith(line, ":") || Trim(line) == "" || !StartsWith(line, DataPrefix)
  }

  /** The payload of a data line: what follows `data: `, trimmed. */
  function Payload(line: string): string
    requires StartsWith(line, DataPrefix)
  {
    Trim(line[|DataPrefix|..])
  }

  /** The interpretation of a payload. */
  function Interpret(payload: string, parse: Parser): (e: LineEvent)
    ensures e.Delta? ==> e.text != ""
  {
    if payload == DoneMarker then Finish
    else match parse(payload)
      case Malformed => Unparsable
      case Parsed(d) => if d.Some? && d.value != "" then Delta(d.value) else Ignore
  }

  /** The interpretation of a line that has already lost its "\r". */
  function Classify(line: string, parse: Parser): (e: LineEvent)
    ensures e.Delta? ==> e.text != ""
  {
    if Skipped(line) then Ignore else Interpret(Payload(line), parse)
  }

  /** The interpretation of a line as it was cut from the buffer. */
  function LineEventOf(raw: string, parse: Parser): LineEvent {
    Classify(StripCR(raw), parse)
  }

  /** A prefix without "\r" is a prefix of a line exactly when it is one of the line with a "\r" after it. */
  lemma StartsWithCR(m: string, p: string)
    requires '\r' !in p
    ensures StartsWith(m + "\r", p) == StartsWith(m, p)
  {
    if StartsWith(m + "\r", p) && |p| > 0 {
      assert p[|p| - 1] in p;
      assert (m + "\r")[|m|] == '\r';
    }
    if |p| <= |m| {
      assert (m + "\r")[..|p|] == m[..|p|];
    }
  }

  /** A "\r" at the end of a line does not change whether it is skipped. */
  lemma SkippedCR(m: string)
    ensures Skipped(m + "\r") == Skipped(m)
  {
    TrimAppendWhitespace(m, '\r');
    StartsWithCR(m, ":");
    StartsWithCR(m, DataPrefix);
  }

  /** Whether a line is skipped does not depend on a trailing "\r". */
  lemma SkippedStripCR(line: string)
    ensures Skipped(StripCR(line)) == Skipped(line)
  {
    var m := StripCR(line);
    if m != line {
      assert line == m + "\r";
      SkippedCR(m);
    }
  }

  /** The payload of a data line does not depend on a trailing "\r". */
  lemma PayloadStripCR(line: string)
    requires StartsWith(line, DataPrefix) && StartsWith(StripCR(line), DataPrefix)
    ensures Payload(StripCR(line)) == Payload(line)
  {
    var m := StripCR(line);
    if m != line {
      assert line == m + ['\r'];
      assert line[6..] == m[6..] + ['\r'];
      TrimAppendWhitespace(m[6..], '\r');
    }
  }

  /**
   * Removing a trailing "\r" never changes how a line is read: the prefixes
   * checked hold of both or neither, and `trim` removes the "\r" anyway.
   */
  lemma ClassifyStripCR(line: string, parse: Parser)
    ensures Classify(StripCR(line), parse) == Classify(line, parse)
  {
    SkippedStripCR(line);
    if !Skipped(line) {
      PayloadStripCR(line);
    }
  }

  /** A CRLF-terminated line is read exactly as the same line without the CR. */
  lemma CrLfAsLf(raw: string, parse: Parser)
    ensures LineEventOf(raw + "\r", parse) == LineEventOf(raw, parse)
  {
    assert (raw + "\r")[..|raw|] == raw;
    ClassifyStripCR(raw, parse);
  }

  /**
   * One split step: `indexOf("\n")`, then the text before it becomes the line
   * and the text after it stays in the buffer.
   */
  function SplitLine(buffer: string): (r: Option<(string, string)>)
    ensures r.None? <==> '\n' !in buffer
    ensures r.Some? ==> buffer == r.value.0 + "\n" + r.value.1 && '\n' !in r.value.0
  {
    var i := IndexOf(buffer, '\n');
    if i < 0 then None
    else
      assert buffer == buffer[..i] + "\n" + buffer[i + 1..];
      Some((buffer[..i], buffer[i + 1..]))
  }

  /** The split is unique: a line without "\n" followed by "\n" is what is cut. */
  lemma SplitLineOf(line: string, rest: string)
    requires '\n' !in line
    ensures SplitLine(line + "\n" + rest) == Some((line, rest))
  {
    IndexOfAfter(line, '\n', rest);
    assert (line + "\n" + rest)[..|line|] == line;
    assert (line + "\n" + rest)[|line| + 1..] == rest;
  }

  /** The state the page keeps while reading: `textBuffer`, `assistantContent`, `streamDone`. */
  datatype Reader = Reader(buffer: string, content: string, done: bool)

  const Start: Reader := Reader("", "", false)

  /**
   * The inner loop: cut and interpret lines while the buffer holds a "\n".
   * "[DONE]" ends the stream; an unparsable payload puts its line (without
   * the "\r") and the "\n" back in front of the buffer and waits for the next
   * chunk.
   */
  function Drain(buffer: string, content: string, parse: Parser): (r: Reader)
    ensures content <= r.content
    ensures |r.buffer| <= |buffer|
    ensures r.done || '\n' !in r.buffer || StalledBuffer(r.buffer, parse)
    decreases |buffer|
  {
    match SplitLine(buffer)
    case None => Reader(buffer, content, false)
    case Some((raw, rest)) =>
      var line := StripCR(raw);
      match LineEventOf(raw, parse)
      case Ignore => Drain(rest, content, parse)
      case Finish => Reader(rest, content, true)
      case Unparsable => PutBackStalls(raw, rest, parse); Reader(line + "\n" + rest, content, false)
      case Delta(text) => Drain(rest, content + text, parse)
  }

  /** The outer loop: append each decoded chunk and drain, until "[DONE]" or the end. */
  function Feed(r: Reader, chunks: seq<string>, parse: Parser): (f: Reader)
    ensures r.content <= f.content
    ensures r.done ==> f == r
    ensures chunks != [] ==> f.done || '\n' !in f.buffer || StalledBuffer(f.buffer, parse)
    decreases |chunks|
  {
    if r.done || chunks == [] then r
    else Feed(Drain(r.buffer + chunks[0], r.content, parse), chunks[1..], parse)
  }

  /** The whole text received so far. */
  function Concat(chunks: seq<string>): string {
    if chunks == [] then "" else chunks[0] + Concat(chunks[1..])
  }

  /** The "\n"-terminated lines of `text`, in order, without their "\n". */
  function CompleteLines(text: string): seq<string>
    decreases |text|
  {
    match SplitLine(text)
    case None => []
    case Some((line, rest)) => [line] + CompleteLines(rest)
  }

  /** The text after the last "\n" of `text`. */
  function Pending(text: string): string
    decreases |text|
  {
    match SplitLine(text)
    case None => text
    case Some((_, rest)) => Pending(rest)
  }

  /** What remains after the last "\n" is a "\n"-free suffix of the text. */
  lemma {:induction false} PendingIsTail(text: string)
    ensures '\n' !in Pending(text)
    ensures |Pending(text)| <= |text| && text[|text| - |Pending(text)|..] == Pending(text)
    decreases |text|
  {
    match SplitLine(text)
    case None =>
    case Some((line, rest)) =>
      PendingIsTail(rest);
      assert text == (line + "\n") + rest;
  }

  /** Splitting a concatenation: the lines of `a`, then those of `a`'s tail followed by `b`. */
  lemma {:induction false} CompleteLinesAppend(a: string, b: string)
    ensures CompleteLines(a + b) == CompleteLines(a) + CompleteLines(Pending(a) + b)
    ensures Pending(a + b) == Pending(Pending(a) + b)
    decreases |a|, 1
  {
    match SplitLine(a)
    case None =>
      assert [] + CompleteLines(a + b) == CompleteLines(a + b);
    case Some((line, rest)) =>
      LineThenAppend(line, rest, b);
  }

  /** The step case of `CompleteLinesAppend`: `a` is a first line and the rest. */
  lemma {:induction false} LineThenAppend(line: string, rest: string, b: string)
    requires '\n' !in line
    ensures CompleteLines(line + "\n" + rest + b) ==
              CompleteLines(line + "\n" + rest) + CompleteLines(Pending(line + "\n" + rest) + b)
    ensures Pending(line + "\n" + rest + b) == Pending(Pending(line + "\n" + rest) + b)
    decreases |line + "\n" + rest|, 0
  {
    LineAppend(line, rest, b);
    SplitLineOf(line, rest + b);
    SplitLineOf(line, rest);
    CompleteLinesAppend(rest, b);
    SeqAssoc([line], CompleteLines(rest), CompleteLines(Pending(rest) + b));
  }

  lemma LineAppend(line: string, rest: string, b: string)
    ensures line + "\n" + rest + b == line + "\n" + (rest + b)
  {
  }

  lemma SeqAssoc<T>(p: seq<T>, q: seq<T>, r: seq<T>)
    ensures p + (q + r) == (p + q) + r
  {
  }

  /** The events of a sequence of lines, in order. */
  function Events(lines: seq<string>, parse: Parser): (es: seq<LineEvent>)
    ensures |es| == |lines|
    decreases |lines|
  {
    if lines == [] then [] else [LineEventOf(lines[0], parse)] + Events(lines[1..], parse)
  }

  lemma {:induction false} EventsAppend(a: seq<string>, b: seq<string>, parse: Parser)
    ensures Events(a + b, parse) == Events(a, parse) + Events(b, parse)
    decreases |a|
  {
    if a == [] {
      assert a + b == b;
    } else {
      assert (a + b)[0] == a[0] && (a + b)[1..] == a[1..] + b;
      EventsAppend(a[1..], b, parse);
    }
  }

  /** Where the line-at-a-time reading stands. */
  datatype Progress = Running(content: string) | Finished(content: string) | Stalled(content: string)

  /** Reading one line's event: only a running reader changes. */
  function Step(p: Progress, e: LineEvent): Progress {
    if !p.Running? then p
    else match e
      case Ignore => p
      case Finish => Finished(p.content)
      case Unparsable => Stalled(p.content)
      case Delta(t) => Running(p.content + t)
  }

  /** Reading events in order. */
  function Run(p: Progress, es: seq<LineEvent>): Progress
    decreases |es|
  {
    if es == [] then p else Run(Step(p, es[0]), es[1..])
  }

  /** The reference reading of the whole received text. */
  function Reading(chunks: seq<string>, parse: Parser): Progress {
    Run(Running(""), Events(CompleteLines(Concat(chunks)), parse))
  }

  /** The assistant message the reference reading produces for the whole stream. */
  function Transcript(chunks: seq<string>, parse: Parser): string {
    Reading(chunks, parse).content
  }

  /** Once finished or stalled, no further line changes anything. */
  lemma {:induction false} RunStopped(p: Progress, es: seq<LineEvent>)
    requires !p.Running?
    ensures Run(p, es) == p
    decreases |es|
  {
    if es != [] {
      RunStopped(Step(p, es[0]), es[1..]);
    }
  }

  /** Reading `a + b` is reading `a`, then `b`. */
  lemma {:induction false} RunAppend(p: Progress, a: seq<LineEvent>, b: seq<LineEvent>)
    ensures Run(p, a + b) == Run(Run(p, a), b)
    decreases |a|
  {
    if a == [] {
      assert a + b == b;
    } else {
      assert (a + b)[0] == a[0] && (a + b)[1..] == a[1..] + b;
      RunAppend(Step(p, a[0]), a[1..], b);
    }
  }

  /** A comment, blank or non-data line can be removed without changing the reading. */
  lemma IgnoredLineIrrelevant(p: Progress, a: seq<string>, line: string, b: seq<string>, parse: Parser)
    requires LineEventOf(line, parse) == Ignore
    ensures Run(p, Events(a + [line] + b, parse)) == Run(p, Events(a + b, parse))
  {
    EventsAppend(a + [line], b, parse);
    EventsAppend(a, [line], parse);
    EventsAppend(a, b, parse);
    var ea, eb := Events(a, parse), Events(b, parse);
    assert Events([line], parse) == [Ignore];
    RunAppend(p, ea + [Ignore], eb);
    RunAppend(p, ea, [Ignore]);
    RunAppend(p, ea, eb);
  }

  /**
   * After "[DONE]", or after a payload that does not parse, no later line is
   * ever read, and the reading is no longer running.
   */
  lemma StopLineCutsRest(p: Progress, a: seq<string>, line: string, b: seq<string>, parse: Parser)
    requires LineEventOf(line, parse) == Finish || LineEventOf(line, parse) == Unparsable
    ensures Run(p, Events(a + [line] + b, parse)) == Run(p, Events(a + [line], parse))
    ensures !Run(p, Events(a + [line], parse)).Running?
  {
    EventsAppend(a + [line], b, parse);
    EventsAppend(a, [line], parse);
    var ea, eb, e := Events(a, parse), Events(b, parse), LineEventOf(line, parse);
    assert Events([line], parse) == [e];
    RunAppend(p, ea + [e], eb);
    RunAppend(p, ea, [e]);
    RunStopped(Run(p, ea + [e]), eb);
  }

  /** The events up to, not including, the first `Finish` or `Unparsable`. */
  function UpToStop(es: seq<LineEvent>): (r: seq<LineEvent>)
    ensures |r| <= |es| && r == es[..|r|]
    ensures forall i :: 0 <= i < |r| ==> !r[i].Finish? && !r[i].Unparsable?
    decreases |es|
  {
    if es == [] || es[0].Finish? || es[0].Unparsable? then []
    else [es[0]] + UpToStop(es[1..])
  }

  /** The delta texts of the given events, concatenated in order. */
  function DeltaText(es: seq<LineEvent>): string
    decreases |es|
  {
    if es == [] then ""
    else (if es[0].Delta? then es[0].text else "") + DeltaText(es[1..])
  }

  /**
   * The reading's content is its start content followed by every delta text
   * before the first stop event, in order; it is still running exactly when
   * there is no stop event.
   */
  lemma {:induction false} RunContent(c: string, es: seq<LineEvent>)
    ensures Run(Running(c), es).content == c + DeltaText(UpToStop(es))
    ensures Run(Running(c), es).Running? <==> UpToStop(es) == es
    decreases |es|
  {
    if es != [] {
      var e := es[0];
      var u := UpToStop(es);
      if e.Finish? || e.Unparsable? {
        RunStopped(Step(Running(c), e), es[1..]);
      } else {
        var c' := if e.Delta? then c + e.text else c;
        assert Step(Running(c), e) == Running(c');
        RunContent(c', es[1..]);
        assert u == [e] + UpToStop(es[1..]);
        assert u[0] == e && u[1..] == UpToStop(es[1..]);
        if u == es {
          assert UpToStop(es[1..]) == es[1..];
        }
        if UpToStop(es[1..]) == es[1..] {
          assert u == [es[0]] + es[1..];
          assert es == [es[0]] + es[1..];
        }
      }
    }
  }

  /** A buffer whose first line is an unparsable payload. */
  ghost predicate StalledBuffer(buffer: string, parse: Parser) {
    var s := SplitLine(buffer);
    s.Some? && LineEventOf(s.value.0, parse) == Unparsable
  }

  /** The page's reader state agrees with the reference reading `p` of the text whose tail is `tail`. */
  ghost predicate Agrees(r: Reader, p: Progress, tail: string, parse: Parser) {
    && r.content == p.content
    && r.done == p.Finished?
    && (p.Running? ==> r.buffer == tail)
    && (p.Stalled? ==> StalledBuffer(r.buffer, parse))
  }

  /** The page's reader state agrees with the reference reading of `text`. */
  ghost predicate Represents(r: Reader, text: string, parse: Parser) {
    Agrees(r, Run(Running(""), Events(CompleteLines(text), parse)), Pending(text), parse)
  }

  /** Dropping a "\r" adds no "\n". */
  lemma StripCRNoNewline(raw: string)
    requires '\n' !in raw
    ensures '\n' !in StripCR(raw)
  {
    var line := StripCR(raw);
    if line != raw {
      assert forall i :: 0 <= i < |line| ==> line[i] == raw[i];
    }
  }

  /** A line put back without its "\r" is read as it was. */
  lemma LineEventOfStripCR(raw: string, parse: Parser)
    ensures LineEventOf(StripCR(raw), parse) == LineEventOf(raw, parse)
  {
    ClassifyStripCR(StripCR(raw), parse);
  }

  /** An unparsable line, put back without its "\r", is still first and still unparsable. */
  lemma PutBackStalls(raw: string, rest: string, parse: Parser)
    requires '\n' !in raw && LineEventOf(raw, parse) == Unparsable
    ensures StalledBuffer(StripCR(raw) + "\n" + rest, parse)
  {
    StripCRNoNewline(raw);
    SplitLineOf(StripCR(raw), rest);
    LineEventOfStripCR(raw, parse);
  }

  /**
   * The inner loop on a buffer reads exactly the buffer's complete lines:
   * it stops where the reference reading stops, leaves the unterminated tail
   * buffered when it runs out of lines, and keeps an unparsable line at the
   * front of the buffer.
   */
  lemma {:induction false} DrainRun(b: string, c: string, parse: Parser)
    ensures Agrees(Drain(b, c, parse), Run(Running(c), Events(CompleteLines(b), parse)), Pending(b), parse)
    decreases |b|
  {
    match SplitLine(b)
    case None =>
    case Some((raw, rest)) =>
      var e := LineEventOf(raw, parse);
      var tail := Events(CompleteLines(rest), parse);
      assert Events(CompleteLines(b), parse) == [e] + tail;
      assert Run(Running(c), [e] + tail) == Run(Step(Running(c), e), tail);
      match e
      case Ignore => DrainRun(rest, c, parse);
      case Delta(t) => DrainRun(rest, c + t, parse);
      case Finish => RunStopped(Finished(c), tail);
      case Unparsable =>
        RunStopped(Stalled(c), tail);
        PutBackStalls(raw, rest, parse);
  }

  /** The reference reading of `text + more` continues the reading of `text` with the lines completed by `more`. */
  lemma ReadingAppend(text: string, more: string, parse: Parser)
    ensures Run(Running(""), Events(CompleteLines(text + more), parse)) ==
            Run(Run(Running(""), Events(CompleteLines(text), parse)), Events(CompleteLines(Pending(text) + more), parse))
    ensures Pending(text + more) == Pending(Pending(text) + more)
  {
    CompleteLinesAppend(text, more);
    EventsAppend(CompleteLines(text), CompleteLines(Pending(text) + more), parse);
    RunAppend(Running(""), Events(CompleteLines(text), parse), Events(CompleteLines(Pending(text) + more), parse));
  }

  /** Feeding a chunk to a running reader: the inner loop reads the newly completed lines. */
  lemma FeedOneRunning(r: Reader, text: string, chunk: string, parse: Parser)
    requires Represents(r, text, parse)
    requires Run(Running(""), Events(CompleteLines(text), parse)).Running?
    ensures Represents(Drain(r.buffer + chunk, r.content, parse), text + chunk, parse)
  {
    var p := Run(Running(""), Events(CompleteLines(text), parse));
    var eb := Events(CompleteLines(Pending(text) + chunk), parse);
    ReadingAppend(text, chunk, parse);
    DrainRun(Pending(text) + chunk, p.content, parse);
    assert Run(Running(""), Events(CompleteLines(text + chunk), parse)) == Run(Running(p.content), eb);
  }

  /** Once the reading of a text has stalled, more text changes nothing. */
  lemma StalledStaysStalled(text: string, more: string, parse: Parser)
    requires Run(Running(""), Events(CompleteLines(text), parse)).Stalled?
    ensures Run(Running(""), Events(CompleteLines(text + more), parse)) ==
            Run(Running(""), Events(CompleteLines(text), parse))
  {
    ReadingAppend(text, more, parse);
    RunStopped(Run(Running(""), Events(CompleteLines(text), parse)), Events(CompleteLines(Pending(text) + more), parse));
  }

  /** Text appended to a buffer that holds a "\n" leaves its first line in place. */
  lemma SplitLineAppend(b: string, more: string)
    requires SplitLine(b).Some?
    ensures SplitLine(b + more) == Some((SplitLine(b).value.0, SplitLine(b).value.1 + more))
  {
    var split := SplitLine(b);
    var raw, rest := split.value.0, split.value.1;
    assert b + more == raw + "\n" + (rest + more);
    SplitLineOf(raw, rest + more);
  }

  /** Text appended to a stalled buffer leaves it stalled. */
  lemma StalledBufferAppend(b: string, more: string, parse: Parser)
    requires StalledBuffer(b, parse)
    ensures StalledBuffer(b + more, parse)
  {
    SplitLineAppend(b, more);
    var x := SplitLine(b).value.0;
    assert SplitLine(b + more).value.0 == x;
  }

  /** Draining a stalled buffer changes neither the content nor the stall. */
  lemma StalledDrain(b: string, c: string, parse: Parser)
    requires StalledBuffer(b, parse)
    ensures var d := Drain(b, c, parse);
            d.content == c && !d.done && StalledBuffer(d.buffer, parse)
  {
    var split := SplitLine(b);
    PutBackStalls(split.value.0, split.value.1, parse);
  }

  /** Feeding a chunk to a stalled reader: the unparsable line fails again and stays in front. */
  lemma FeedOneStalled(r: Reader, text: string, chunk: string, parse: Parser)
    requires Represents(r, text, parse)
    requires Run(Running(""), Events(CompleteLines(text), parse)).Stalled?
    ensures Represents(Drain(r.buffer + chunk, r.content, parse), text + chunk, parse)
  {
    StalledStaysStalled(text, chunk, parse);
    StalledBufferAppend(r.buffer, chunk, parse);
    StalledDrain(r.buffer + chunk, r.content, parse);
  }

  /** Feeding a chunk to a reader that has not met "[DONE]" keeps it in step with the reference. */
  lemma FeedOne(r: Reader, text: string, chunk: string, parse: Parser)
    requires Represents(r, text, parse) && !r.done
    ensures Represents(Drain(r.buffer + chunk, r.content, parse), text + chunk, parse)
  {
    if Run(Running(""), Events(CompleteLines(text), parse)).Running? {
      FeedOneRunning(r, text, chunk, parse);
    } else {
      FeedOneStalled(r, text, chunk, parse);
    }
  }

  /** A reader that has met "[DONE]" stays in step with the reference whatever text follows. */
  lemma FinishedStays(r: Reader, text: string, more: string, parse: Parser)
    requires Represents(r, text, parse) && r.done
    ensures Represents(r, text + more, parse)
  {
    ReadingAppend(text, more, parse);
    RunStopped(Run(Running(""), Events(CompleteLines(text), parse)), Events(CompleteLines(Pending(text) + more), parse));
  }

  /** The text so far followed by the chunks, with the first chunk taken apart. */
  lemma AppendConcat(text: string, chunks: seq<string>)
    requires chunks != []
    ensures text + chunks[0] + Concat(chunks[1..]) == text + Concat(chunks)
  {
  }

  /** After one round of the outer loop, feeding the remaining chunks finishes the job. */
  lemma FeedRest(r: Reader, text: string, chunks: seq<string>, parse: Parser)
    requires !r.done && chunks != []
    requires Represents(Feed(Drain(r.buffer + chunks[0], r.content, parse), chunks[1..], parse),
                        text + chunks[0] + Concat(chunks[1..]), parse)
    ensures Represents(Feed(r, chunks, parse), text + Concat(chunks), parse)
  {
    assert Feed(r, chunks, parse) == Feed(Drain(r.buffer + chunks[0], r.content, parse), chunks[1..], parse);
    AppendConcat(text, chunks);
  }

  /**
   * One round of the inner loop, as the page writes it: the line before the
   * first "\n" loses its "\r", skipped lines are dropped, "[DONE]" stops,
   * an unparsable payload goes back in front, and a delta is appended. It
   * only unfolds `Drain` once, in the page's terms, for the loop invariant
   * of `CoachPage.DrainLines`.
   */
  lemma DrainLine(buffer: string, c: string, parse: Parser)
    requires '\n' in buffer
    ensures var i := IndexOf(buffer, '\n');
            var line, rest := StripCR(buffer[..i]), buffer[i + 1..];
            Drain(buffer, c, parse) ==
              if Skipped(line) then Drain(rest, c, parse)
              else if Payload(line) == DoneMarker then Reader(rest, c, true)
              else match parse(Payload(line))
                case Malformed => Reader(line + "\n" + rest, c, false)
                case Parsed(d) => Drain(rest, if d.Some? && d.value != "" then c + d.value else c, parse)
  {
  }

  /** Feeding any further chunks keeps the page's state in step with the reference. */
  lemma {:induction false} FeedRepresents(r: Reader, text: string, chunks: seq<string>, parse: Parser)
    requires Represents(r, text, parse)
    ensures Represents(Feed(r, chunks, parse), text + Concat(chunks), parse)
    decreases |chunks|
  {
    if chunks == [] {
      assert text + Concat(chunks) == text;
    } else if r.done {
      FinishedStays(r, text, Concat(chunks), parse);
    } else {
      FeedOne(r, text, chunks[0], parse);
      FeedRepresents(Drain(r.buffer + chunks[0], r.content, parse), text + chunks[0], chunks[1..], parse);
      FeedRest(r, text, chunks, parse);
    }
  }

  /**
   * The page's nested loops produce the reference transcript: the assistant
   * message is the in-order concatenation of the delta texts of the received
   * complete lines up to the first "[DONE]" or unparsable payload, the stream
   * is done exactly when a "[DONE]" line was read, and while neither has been
   * met the text after the last "\n" is what stays buffered.
   */
  lemma FeedMatchesRun(chunks: seq<string>, parse: Parser)
    ensures Feed(Start, chunks, parse).content == Transcript(chunks, parse)
    ensures Feed(Start, chunks, parse).content ==
              DeltaText(UpToStop(Events(CompleteLines(Concat(chunks)), parse)))
    ensures Feed(Start, chunks, parse).done <==> Reading(chunks, parse).Finished?
    ensures Reading(chunks, parse).Running? ==> Feed(Start, chunks, parse).buffer == Pending(Concat(chunks))
  {
    assert Represents(Start, "", parse);
    FeedRepresents(Start, "", chunks, parse);
    assert "" + Concat(chunks) == Concat(chunks);
    RunContent("", Events(CompleteLines(Concat(chunks)), parse));
  }

  /** How the stream is cut into chunks has no effect on the assistant message. */
  lemma ChunkingIrrelevant(c1: seq<string>, c2: seq<string>, parse: Parser)
    requires Concat(c1) == Concat(c2)
    ensures Feed(Start, c1, parse).content == Feed(Start, c2, parse).content
    ensures Feed(Start, c1, parse).done == Feed(Start, c2, parse).done
  {
    FeedMatchesRun(c1, parse);
    FeedMatchesRun(c2, parse);
  }

  /**
   * An unparsable payload loses no text: its line goes back in front of the
   * buffer with only the "\r" dropped, where it is again the first line and
   * again unparsable.
   */
  lemma UnparsableLinePutBack(raw: string, rest: string, c: string, parse: Parser)
    requires '\n' !in raw && LineEventOf(raw, parse) == Unparsable
    ensures Drain(raw + "\n" + rest, c, parse) == Reader(StripCR(raw) + "\n" + rest, c, false)
    ensures StalledBuffer(Drain(raw + "\n" + rest, c, parse).buffer, parse)
  {
    SplitLineOf(raw, rest);
    PutBackStalls(raw, rest, parse);
  }
}
