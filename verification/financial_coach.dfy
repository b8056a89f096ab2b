/**
 * The chat coach page: the conversation it shows, the input box, the
 * loading flag and the toasts it raises, and the two halves of a send —
 * `Send` (the part of `handleSend` before the request goes out) and
 * `Receive` (`streamChat` reading the response, then the `finally`).
 *
 * `Receive` runs the page's two nested loops literally; its contract ties
 * the assistant message they build to `ChatStream.Feed`, which
 * `ChatStream.FeedMatchesRun` relates to the line-at-a-time reading.
 */
module FinancialCoach {
  import opened Wrappers
  import opened JsString
  import opened ChatStream

  datatype Role = User | Assistant

  datatype Message = Message(role: Role, content: string)

  /** The assistant's opening message. */
  const Greeting: string :=
    "\U{1F44B} Hello! I'm your FinWise AI Coach. I'm here to help you with budgeting, savings, investments, and financial planning. What would you like to know?"

  datatype Toast = Toast(title: string, description: string, destructive: bool)

  /**
   * What `fetch` yields: a rejected promise, or a response with its status
   * and, when it has a body, the text chunks the decoder produces from it.
   */
  datatype Response = Rejected | Answered(status: int, body: Option<seq<string>>)

  /** `resp.ok`. */
  predicate IsOk(status: int) {
    200 <= status <= 299
  }

  /** The toast raised for a response that is not ok. */
  function FailureToast(status: int): (t: Toast)
    ensures t.destructive
    ensures status == 429 <==> t.title == "Rate Limit Reached"
    ensures status == 402 <==> t.title == "Payment Required"
    ensures status != 429 && status != 402 <==> t.title == "Error"
  {
    if status == 429 then Toast("Rate Limit Reached", "Too many requests. Please try again in a moment.", true)
    else if status == 402 then Toast("Payment Required", "Please add credits to continue using AI features.", true)
    else Toast("Error", "Failed to get response from AI coach.", true)
  }

  /** What the conversation becomes once a response has been read. */
  function AfterResponse(messages: seq<Message>, response: Response, parse: Parser): (r: seq<Message>)
    ensures |r| == |messages| || |r| == |messages| + 1
    ensures r[..|messages|] == messages
    ensures |r| == |messages| + 1 <==> response.Answered? && IsOk(response.status) && response.body.Some?
    ensures |r| == |messages| + 1 ==>
              r[|messages|] == Message(Assistant, Transcript(response.body.value, parse))
  {
    match response
    case Rejected => messages
    case Answered(status, body) =>
      if IsOk(status) && body.Some? then
        messages + [Message(Assistant, Transcript(body.value, parse))]
      else messages
  }

  class CoachPage {
    var messages: seq<Message>
    var input: string
    var isLoading: bool
    var toasts: seq<Toast>

    /** The conversation always opens with the greeting. */
    ghost predicate Valid()
      reads this
    {
      |messages| >= 1 && messages[0] == Message(Assistant, Greeting)
    }

    constructor ()
      ensures Valid()
      ensures messages == [Message(Assistant, Greeting)] && input == "" && !isLoading && toasts == []
    {
      messages := [Message(Assistant, Greeting)];
      input := "";
      isLoading := false;
      toasts := [];
    }

    /** Typing into the input box. */
    method Type(text: string)
      modifies this`input
      ensures input == text
    {
      input := text;
    }

    /**
     * `handleSend` up to the request: nothing happens while the trimmed input
     * is empty or a reply is loading; otherwise the trimmed input is appended
     * as a user message, the box is cleared, the page starts loading, and the
     * request carries the conversation before the send plus that message.
     */
    method Send() returns (request: Option<seq<Message>>)
      requires Valid()
      modifies this`messages, this`input, this`isLoading
      ensures Valid()
      ensures request.None? <==> (Trim(old(input)) == "" || old(isLoading))
      ensures request.None? ==> messages == old(messages) && input == old(input) && isLoading == old(isLoading)
      ensures request.Some? ==>
                && request.value == old(messages) + [Message(User, Trim(old(input)))]
                && messages == request.value
                && input == ""
                && isLoading
    {
      if Trim(input) == "" || isLoading {
        return None;
      }
      var userMessage := Trim(input);
      input := "";
      messages := messages + [Message(User, userMessage)];
      isLoading := true;
      request := Some(messages);
    }

    /**
     * `streamChat` reading the response, then `finally`: a failed status
     * raises its toast, a missing body adds nothing, and a body adds one
     * assistant message whose text grows as the nested loops read deltas.
     */
    method Receive(response: Response, parse: Parser)
      requires Valid()
      modifies this`messages, this`isLoading, this`toasts
      ensures Valid()
      ensures !isLoading
      ensures messages == AfterResponse(old(messages), response, parse)
      ensures toasts == if response.Answered? && !IsOk(response.status)
                        then old(toasts) + [FailureToast(response.status)]
                        else old(toasts)
    {
      match response {
        case Rejected =>
        case Answered(status, body) =>
          if !IsOk(status) {
            toasts := toasts + [FailureToast(status)];
          } else if body.Some? {
            var content := ReadStream(body.value, parse);
            FeedMatchesRun(body.value, parse);
          }
      }
      isLoading := false;
    }

    /**
     * The body-reading part of `streamChat`: an empty assistant message is
     * appended and the nested loops rewrite it as content arrives.
     */
    method ReadStream(chunks: seq<string>, parse: Parser) returns (content: string)
      requires Valid()
      modifies this`messages
      ensures Valid()
      ensures content == Feed(Start, chunks, parse).content
      ensures messages == old(messages) + [Message(Assistant, content)]
    {
      var base := messages;
      messages := messages + [Message(Assistant, "")];
      var buffer, done := "", false;
      content := "";
      var k := 0;
      while !done && k < |chunks|
        invariant 0 <= k <= |chunks|
        invariant Feed(Reader(buffer, content, done), chunks[k..], parse) == Feed(Start, chunks, parse)
        invariant messages == base + [Message(Assistant, content)]
        decreases |chunks| - k
      {
        ghost var target := Drain(buffer + chunks[k], content, parse);
        assert Feed(Reader(buffer, content, done), chunks[k..], parse) == Feed(target, chunks[k + 1..], parse);
        buffer := buffer + chunks[k];
        k := k + 1;
        buffer, content, done := DrainLines(buffer, content, parse, base);
        assert Reader(buffer, content, done) == target;
      }
      assert done || chunks[k..] == [];
    }

    /** The inner loop: cut and read lines while the buffer holds a "\n". */
    method DrainLines(buffer0: string, content0: string, parse: Parser, ghost base: seq<Message>)
      returns (buffer: string, content: string, done: bool)
      requires messages == base + [Message(Assistant, content0)]
      requires |base| >= 1 && base[0] == Message(Assistant, Greeting)
      modifies this`messages
      ensures Reader(buffer, content, done) == Drain(buffer0, content0, parse)
      ensures messages == base + [Message(Assistant, content)]
    {
      buffer, content, done := buffer0, content0, false;
      while true
        invariant Drain(buffer, content, parse) == Drain(buffer0, content0, parse)
        invariant messages == base + [Message(Assistant, content)]
        decreases |buffer|
      {
        var newlineIndex := IndexOf(buffer, '\n');
        if newlineIndex == -1 {
          break;
        }
        DrainLine(buffer, content, parse);
        var line := buffer[..newlineIndex];
        buffer := buffer[newlineIndex + 1..];
        if EndsWith(line, "\r") {
          line := line[..|line| - 1];
        }
        if StartsWith(line, ":") || Trim(line) == "" {
          continue;
        }
        if !StartsWith(line, DataPrefix) {
          continue;
        }
        var jsonStr := Trim(line[6..]);
        if jsonStr == DoneMarker {
          done := true;
          break;
        }
        match parse(jsonStr)
        case Malformed =>
          buffer := line + "\n" + buffer;
          break;
        case Parsed(d) =>
          if d.Some? && d.value != "" {
            content := content + d.value;
            messages := messages[..|messages| - 1] + [Message(Assistant, content)];
          }
      }
    }
  }
}
