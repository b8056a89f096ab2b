/**
 * The `financial-coach` serverless function: CORS preflight, the presence
 * check on the `Authorization` header, the request schema (1 to 50
 * messages, each with role "user" or "assistant" and content of 1 to 10000
 * characters), and the mapping from the AI gateway's answer to the
 * function's own response.
 *
 * `Validate` reports schema issues in the order the schema library finds
 * them; `IsValidBody` is the declarative schema and `ValidateAccepts`
 * proves the two agree. `Handle` is the handler's sequence of early
 * returns.
 */
module CoachFunction {
  import opened Wrappers
  import opened JsString

  /** A parsed JSON value. Object keys map to their (last) value. */
  datatype Json =
    | JNull
    | JBool(b: bool)
    | JNum(n: real)
    | JStr(s: string)
    | JArr(items: seq<Json>)
    | JObj(fields: map<string, Json>)

  /** The type name the schema library reports for a value. */
  function TypeName(j: Json): string {
    match j
    case JNull => "null"
    case JBool(_) => "boolean"
    case JNum(_) => "number"
    case JStr(_) => "string"
    case JArr(_) => "array"
    case JObj(_) => "object"
  }

  datatype Role = User | Assistant

  function RoleName(r: Role): string {
    match r
    case User => "user"
    case Assistant => "assistant"
  }

  /** A validated message, with any other keys of the object dropped. */
  datatype ChatMessage = ChatMessage(role: Role, content: string)

  datatype PathItem = Key(key: string) | Index(index: nat)

  /** What a schema issue is about. */
  datatype IssueCode =
    | InvalidType(expected: string, received: string)
    | InvalidEnumValue(received: string)
    | TooSmall(minimum: nat)
    | TooBig(maximum: nat)

  datatype Issue = Issue(path: seq<PathItem>, code: IssueCode)

  const MaxMessages: nat := 50
  const MaxContent: nat := 10000

  /** The fixed texts of the responses. */
  const RateLimitedError: string := "Rate limits exceeded, please try again later."
  const PaymentRequiredError: string := "Payment required, please add funds to your Lovable AI workspace."
  const GatewayError: string := "AI gateway error"
  const UnauthorizedError: string := "Unauthorized - Authentication required"
  const MissingKeyError: string := "LOVABLE_API_KEY is not configured"
  const InvalidFormat: string := "Invalid message format"
  const UnknownError: string := "Unknown error"
  const JsonType: string := "application/json"
  const EventStreamType: string := "text/event-stream"

  /** The role field: a string, and one of the two roles. */
  function RoleIssues(path: seq<PathItem>, j: Option<Json>): (issues: seq<Issue>)
    ensures issues == [] <==> j == Some(JStr("user")) || j == Some(JStr("assistant"))
    ensures |issues| <= 1
  {
    match j
    case None => [Issue(path, InvalidType("'user' | 'assistant'", "undefined"))]
    case Some(JStr(s)) =>
      if s == "user" || s == "assistant" then [] else [Issue(path, InvalidEnumValue(s))]
    case Some(v) => [Issue(path, InvalidType("'user' | 'assistant'", TypeName(v)))]
  }

  /** The content field: a string of 1 to 10000 UTF-16 code units. */
  function ContentIssues(path: seq<PathItem>, j: Option<Json>): (issues: seq<Issue>)
    ensures issues == [] <==> j.Some? && j.value.JStr? && 1 <= Utf16Length(j.value.s) <= MaxContent
  {
    match j
    case None => [Issue(path, InvalidType("string", "undefined"))]
    case Some(JStr(s)) =>
      (if Utf16Length(s) < 1 then [Issue(path, TooSmall(1))] else []) +
      (if Utf16Length(s) > MaxContent then [Issue(path, TooBig(MaxContent))] else [])
    case Some(v) => [Issue(path, InvalidType("string", TypeName(v)))]
  }

  function Field(fields: map<string, Json>, key: string): Option<Json> {
    if key in fields then Some(fields[key]) else None
  }

  /** One array element: an object, then its role, then its content. */
  function ItemIssues(path: seq<PathItem>, j: Json): seq<Issue> {
    match j
    case JObj(fields) =>
      RoleIssues(path + [Key("role")], Field(fields, "role")) +
      ContentIssues(path + [Key("content")], Field(fields, "content"))
    case _ => [Issue(path, InvalidType("object", TypeName(j)))]
  }

  /** The issues of the elements from index `start` on, element by element. */
  function ItemsIssues(items: seq<Json>, start: nat): seq<Issue>
    decreases |items|
  {
    if items == [] then []
    else ItemIssues([Key("messages"), Index(start)], items[0]) + ItemsIssues(items[1..], start + 1)
  }

  /** The declarative message schema. */
  predicate ValidMessage(j: Json) {
    && j.JObj?
    && "role" in j.fields && j.fields["role"] in {JStr("user"), JStr("assistant")}
    && "content" in j.fields && j.fields["content"].JStr?
    && 1 <= Utf16Length(j.fields["content"].s) <= MaxContent
  }

  /** The declarative request schema. */
  predicate IsValidBody(body: Json) {
    && body.JObj?
    && "messages" in body.fields
    && body.fields["messages"].JArr?
    && 1 <= |body.fields["messages"].items| <= MaxMessages
    && forall i :: 0 <= i < |body.fields["messages"].items| ==> ValidMessage(body.fields["messages"].items[i])
  }

  /** The message a valid element stands for. */
  function ToMessage(j: Json): ChatMessage
    requires ValidMessage(j)
  {
    ChatMessage(if j.fields["role"] == JStr("user") then User else Assistant, j.fields["content"].s)
  }

  function ToMessages(items: seq<Json>): (ms: seq<ChatMessage>)
    requires forall i :: 0 <= i < |items| ==> ValidMessage(items[i])
    ensures |ms| == |items| && forall i :: 0 <= i < |items| ==> ms[i] == ToMessage(items[i])
  {
    seq(|items|, i requires 0 <= i < |items| => ToMessage(items[i]))
  }

  lemma ItemIssuesNone(path: seq<PathItem>, j: Json)
    ensures ItemIssues(path, j) == [] <==> ValidMessage(j)
  {
  }

  /** The elements raise no issue exactly when every one of them is a valid message. */
  lemma {:induction false} ItemsIssuesNone(items: seq<Json>, start: nat)
    ensures ItemsIssues(items, start) == [] <==> forall i :: 0 <= i < |items| ==> ValidMessage(items[i])
    decreases |items|
  {
    if items != [] {
      ItemIssuesNone([Key("messages"), Index(start)], items[0]);
      ItemsIssuesNone(items[1..], start + 1);
      if forall i :: 0 <= i < |items| ==> ValidMessage(items[i]) {
        forall i | 0 <= i < |items[1..]| ensures ValidMessage(items[1..][i]) {
          assert items[1..][i] == items[i + 1];
        }
      }
      if ItemsIssues(items, start) == [] {
        forall i | 0 <= i < |items| ensures ValidMessage(items[i]) {
          if i > 0 {
            assert items[i] == items[1..][i - 1];
          }
        }
      }
    }
  }

  /**
   * `requestSchema.safeParse(body)`: the body must be an object whose
   * `messages` is an array; then the length bounds and the elements in
   * order, each element's role before its content.
   */
  function Validate(body: Json): (r: Result<seq<ChatMessage>, seq<Issue>>)
    ensures r.Err? ==> |r.error| >= 1
  {
    if !body.JObj? then Err([Issue([], InvalidType("object", TypeName(body)))])
    else if "messages" !in body.fields then Err([Issue([Key("messages")], InvalidType("array", "undefined"))])
    else
      var m := body.fields["messages"];
      if !m.JArr? then Err([Issue([Key("messages")], InvalidType("array", TypeName(m)))])
      else
        var issues :=
          (if |m.items| < 1 then [Issue([Key("messages")], TooSmall(1))] else []) +
          (if |m.items| > MaxMessages then [Issue([Key("messages")], TooBig(MaxMessages))] else []) +
          ItemsIssues(m.items, 0);
        if issues != [] then Err(issues)
        else
          ItemsIssuesNone(m.items, 0);
          Ok(ToMessages(m.items))
  }

  /**
   * A body is accepted exactly when it meets the schema, and then the
   * messages are its elements, in order, with only role and content kept.
   */
  lemma ValidateAccepts(body: Json)
    ensures Validate(body).Ok? <==> IsValidBody(body)
    ensures Validate(body).Ok? ==>
              var items := body.fields["messages"].items;
              |Validate(body).value| == |items| &&
              forall i :: 0 <= i < |items| ==> Validate(body).value[i] == ToMessage(items[i])
  {
    if body.JObj? && "messages" in body.fields && body.fields["messages"].JArr? {
      ItemsIssuesNone(body.fields["messages"].items, 0);
    }
  }

  /** A too long conversation is rejected first for its length, whatever its elements. */
  lemma TooManyMessagesFirst(body: Json)
    requires body.JObj? && "messages" in body.fields && body.fields["messages"].JArr?
    requires |body.fields["messages"].items| > MaxMessages
    ensures Validate(body) == Err([Issue([Key("messages")], TooBig(MaxMessages))] + ItemsIssues(body.fields["messages"].items, 0))
  {
    var e: seq<Issue> := [];
    assert e + [Issue([Key("messages")], TooBig(MaxMessages))] == [Issue([Key("messages")], TooBig(MaxMessages))];
  }

  /** An empty conversation is rejected for its length alone. */
  lemma EmptyConversation(fields: map<string, Json>)
    requires Field(fields, "messages") == Some(JArr([]))
    ensures Validate(JObj(fields)) == Err([Issue([Key("messages")], TooSmall(1))])
  {
    var e: seq<Issue> := [];
    assert ItemsIssues([], 0) == e;
    assert [Issue([Key("messages")], TooSmall(1))] + e + e == [Issue([Key("messages")], TooSmall(1))];
  }

  /** The text the schema library gives an issue (its wording is not part of this model). */
  type IssueText = Issue -> string

  /** `validationResult.error.errors[0]?.message || 'Invalid message format'`. */
  function FirstMessage(issues: seq<Issue>, text: IssueText): (m: string)
    ensures m != ""
    ensures issues != [] && text(issues[0]) != "" ==> m == text(issues[0])
    ensures issues == [] || text(issues[0]) == "" ==> m == InvalidFormat
  {
    if issues != [] && text(issues[0]) != "" then text(issues[0]) else InvalidFormat
  }

  type Headers = map<string, string>

  const CorsHeaders: Headers := map[
    "Access-Control-Allow-Origin" := "*",
    "Access-Control-Allow-Headers" := "authorization, x-client-info, apikey, content-type"
  ]

  /** The CORS headers plus, when given, a `Content-Type`. */
  function HeadersWith(contentType: Option<string>): Headers {
    match contentType
    case None => CorsHeaders
    case Some(t) => CorsHeaders["Content-Type" := t]
  }

  /** A response body: none, `{ error }` as JSON, or the gateway's stream relayed. */
  datatype Body = NoBody | ErrorBody(error: string) | Relayed(chunks: seq<string>)

  /** A response; its headers are the CORS headers and its content type. */
  datatype Response = Response(status: int, contentType: Option<string>, body: Body) {
    function Headers(): Headers {
      HeadersWith(contentType)
    }
  }

  function ErrorResponse(status: int, error: string): Response {
    Response(status, Some(JsonType), ErrorBody(error))
  }

  /** A thrown value: an `Error` with its message, or anything else. */
  datatype Thrown = ErrorValue(message: string) | OtherValue

  /** `e instanceof Error ? e.message : UnknownError`. */
  function ThrownMessage(e: Thrown): string {
    match e
    case ErrorValue(m) => m
    case OtherValue => UnknownError
  }

  /** `req.json()`: the parsed body, or what it throws. */
  datatype BodyRead = Parsed(json: Json) | ReadFailed(thrown: Thrown)

  datatype Request = Request(httpMethod: string, authorization: Option<string>, body: BodyRead)

  /**
   * What the gateway call yields: a response with its status, its stream and
   * what reading the stream as text (`response.text()`) would throw, if
   * anything; or the value the call itself threw.
   */
  datatype Upstream =
    | Answered(status: int, stream: seq<string>, textFailure: Option<Thrown>)
    | FetchFailed(thrown: Thrown)

  /** The model the function asks the gateway for. */
  const GatewayModel: string := "google/gemini-2.5-flash"

  /** The body of the gateway request. */
  datatype GatewayRequest = GatewayRequest(model: string, system: string, messages: seq<ChatMessage>, stream: bool)

  /** The gateway, an oracle of the model. */
  type Gateway = GatewayRequest -> Upstream

  /** The list forwarded to the gateway as (role, content) pairs: the system message, then the conversation. */
  function Forwarded(g: GatewayRequest): (ms: seq<(string, string)>)
    ensures |ms| == |g.messages| + 1
    ensures ms[0] == ("system", g.system)
    ensures forall i :: 0 <= i < |g.messages| ==> ms[i + 1] == (RoleName(g.messages[i].role), g.messages[i].content)
  {
    [("system", g.system)] + seq(|g.messages|, i requires 0 <= i < |g.messages| => (RoleName(g.messages[i].role), g.messages[i].content))
  }

  /** `!authHeader`: absent or empty. */
  predicate Falsy(s: Option<string>) {
    s.None? || s.value == ""
  }

  /** The gateway's answer mapped to the function's response. */
  function Relay(u: Upstream): (r: Response)
    ensures || (r.contentType == Some(EventStreamType) && r.body.Relayed?)
            || (r.contentType == Some(JsonType) && r.body.ErrorBody?)
  {
    match u
    case FetchFailed(e) => ErrorResponse(500, ThrownMessage(e))
    case Answered(status, stream, textFailure) =>
      if 200 <= status <= 299 then Response(200, Some(EventStreamType), Relayed(stream))
      else if status == 429 then ErrorResponse(429, RateLimitedError)
      else if status == 402 then ErrorResponse(402, PaymentRequiredError)
      else match textFailure
        case Some(e) => ErrorResponse(500, ThrownMessage(e))
        case None => ErrorResponse(500, GatewayError)
  }

  /**
   * The handler: preflight, authorization, body, schema, API key, gateway,
   * each returning early; what is thrown on the way becomes a 500. The
   * system prompt's text is the parameter `system`; the properties below
   * hold for any prompt.
   */
  function Handle(req: Request, apiKey: Option<string>, gateway: Gateway, text: IssueText, system: string): (r: Response)
    ensures r.status in {200, 400, 401, 402, 429, 500}
    ensures r.status == 200 <==> r.body.NoBody? || r.body.Relayed?
  {
    if req.httpMethod == "OPTIONS" then Response(200, None, NoBody)
    else if Falsy(req.authorization) then ErrorResponse(401, UnauthorizedError)
    else match req.body
      case ReadFailed(e) => ErrorResponse(500, ThrownMessage(e))
      case Parsed(body) =>
        match Validate(body)
        case Err(issues) => ErrorResponse(400, FirstMessage(issues, text))
        case Ok(messages) =>
          if Falsy(apiKey) then ErrorResponse(500, MissingKeyError)
          else Relay(gateway(GatewayRequest(GatewayModel, system, messages, true)))
  }

  /** Adding a content type keeps both CORS headers. */
  lemma ContentTypeKeepsCors(contentType: Option<string>)
    ensures forall k :: k in CorsHeaders ==> k in HeadersWith(contentType) && HeadersWith(contentType)[k] == CorsHeaders[k]
  {
  }

  /**
   * Every response, success or error, carries both CORS headers. A `Response`
   * keeps only its content type and derives its headers from it, so this holds
   * by construction for any response; what the lemma checks is that adding the
   * content type, as each `new Response` of the function does, never drops or
   * overrides a CORS header.
   */
  lemma CorsEverywhere(req: Request, apiKey: Option<string>, gateway: Gateway, text: IssueText, system: string)
    ensures var h := Handle(req, apiKey, gateway, text, system).Headers();
            forall k :: k in CorsHeaders ==> k in h && h[k] == CorsHeaders[k]
  {
    ContentTypeKeepsCors(Handle(req, apiKey, gateway, text, system).contentType);
  }

  /** The content types the function answers with: none for a preflight, JSON for errors, an event stream on success. */
  lemma ContentTypes(req: Request, apiKey: Option<string>, gateway: Gateway, text: IssueText, system: string)
    ensures var r := Handle(req, apiKey, gateway, text, system);
            && (r.contentType.None? <==> req.httpMethod == "OPTIONS")
            && (r.contentType == Some(EventStreamType) <==> r.body.Relayed?)
            && (r.contentType == Some(JsonType) <==> r.body.ErrorBody?)
  {
    assert JsonType[0] != EventStreamType[0];
  }

  /** A preflight gets the bare CORS response, whatever else the request holds. */
  lemma PreflightUnchecked(req: Request, apiKey: Option<string>, gateway: Gateway, text: IssueText, system: string)
    requires req.httpMethod == "OPTIONS"
    ensures Handle(req, apiKey, gateway, text, system) == Response(200, None, NoBody)
  {
  }

  /** A request other than a preflight is refused with 401 exactly when its `Authorization` header is absent or empty. */
  lemma UnauthorizedIff(req: Request, apiKey: Option<string>, gateway: Gateway, text: IssueText, system: string)
    requires req.httpMethod != "OPTIONS"
    ensures Handle(req, apiKey, gateway, text, system).status == 401 <==> Falsy(req.authorization)
  {
  }

  /** Only the presence of the header is checked: any non-empty value gets past it. */
  lemma AnyTokenPasses(req: Request, token: string, apiKey: Option<string>, gateway: Gateway, text: IssueText, system: string)
    requires req.httpMethod != "OPTIONS" && token != ""
    ensures Handle(req.(authorization := Some(token)), apiKey, gateway, text, system) ==
            Handle(req.(authorization := Some("x")), apiKey, gateway, text, system)
  {
  }

  /** A parsed body that breaks the schema gets 400 with the first issue's text, or the fallback. */
  lemma RejectedBody(req: Request, apiKey: Option<string>, gateway: Gateway, text: IssueText, system: string)
    requires req.httpMethod != "OPTIONS" && !Falsy(req.authorization)
    requires req.body.Parsed? && !IsValidBody(req.body.json)
    ensures var r := Handle(req, apiKey, gateway, text, system);
            r.status == 400 && r.body == ErrorBody(FirstMessage(Validate(req.body.json).error, text))
  {
    ValidateAccepts(req.body.json);
  }

  /**
   * An accepted request reaches the gateway with the system message ahead
   * of the validated messages, and the gateway's status decides the
   * response: ok relays the stream as an event stream, 429 and 402 keep
   * their status, any other status and any thrown error become 500.
   */
  lemma AcceptedForwarded(req: Request, apiKey: Option<string>, gateway: Gateway, text: IssueText, system: string)
    requires req.httpMethod != "OPTIONS" && !Falsy(req.authorization) && !Falsy(apiKey)
    requires req.body.Parsed? && IsValidBody(req.body.json)
    ensures var items := req.body.json.fields["messages"].items;
            var g := GatewayRequest(GatewayModel, system, ToMessages(items), true);
            && |Forwarded(g)| == |items| + 1
            && Forwarded(g)[0] == ("system", system)
            && (forall i :: 0 <= i < |items| ==>
                  Forwarded(g)[i + 1] == (RoleName(ToMessage(items[i]).role), ToMessage(items[i]).content))
            && Handle(req, apiKey, gateway, text, system) == Relay(gateway(g))
  {
    ValidateAccepts(req.body.json);
  }

  /** The status mapping of the gateway's answer. */
  lemma RelayStatus(u: Upstream)
    ensures Relay(u).status == 200 <==> u.Answered? && 200 <= u.status <= 299
    ensures u.Answered? && u.status == 429 ==> Relay(u).status == 429
    ensures u.Answered? && u.status == 402 ==> Relay(u).status == 402
    ensures u.Answered? && !(200 <= u.status <= 299) && u.status != 429 && u.status != 402 ==>
              Relay(u) == ErrorResponse(500, if u.textFailure.Some? then ThrownMessage(u.textFailure.value) else GatewayError)
    ensures u.FetchFailed? ==> Relay(u) == ErrorResponse(500, ThrownMessage(u.thrown))
    ensures Relay(u).status == 200 ==>
              Relay(u).contentType == Some(EventStreamType) && Relay(u).body == Relayed(u.stream)
  {
  }
}
