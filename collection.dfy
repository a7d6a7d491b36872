/**
 * The chat transport: the client for the hosted flow-execution API
 * (`LangflowClient`) and the POST handler of the local `/api/collection`
 * endpoint that forwards one chat turn to it and shapes the reply.
 *
 * The network is not modelled: each `fetch` is replaced by its outcome,
 * given as a parameter, and the request that would have been sent is
 * returned instead.
 */
module Collection {
  import opened Wrappers
  import opened Strings
  import opened Json

  const BaseUrl: string := "https://api.langflow.astra.datastax.com"
  const FlowIdOrName: string := "d6dc026b-b629-441d-bf94-8ddafc1ac6c1"
  const LangflowId: string := "6280155c-72f5-4a5e-a1de-1199cea3c176"

  /** Per-component overrides of the flow: every component with an empty parameter object. */
  const Tweaks: Json := JObj([
    ("ChatInput-ufonD", JObj([])),
    ("ParseData-nVbw4", JObj([])),
    ("Prompt-Mbumw", JObj([])),
    ("SplitText-gcj2y", JObj([])),
    ("ChatOutput-kKsN3", JObj([])),
    ("AstraDB-s0C8l", JObj([])),
    ("OpenAIEmbeddings-QECx2", JObj([])),
    ("File-kj26O", JObj([])),
    ("AstraDBToolComponent-6ImZP", JObj([])),
    ("OpenAIModel-pgFdD", JObj([])),
    ("MistralModel-sTyFL", JObj([]))])

  /** What one `fetch` came back with: a rejection, or a response whose body did or did not parse as JSON. */
  datatype FetchOutcome =
    | Rejected(message: string)
    | Answered(status: nat, statusText: string, body: Result<Json, string>)

  /** `response.ok` */
  predicate IsOk(status: nat) {
    200 <= status <= 299
  }

  /** The POST request the client would send; the body is the value `JSON.stringify` is applied to. */
  datatype HttpRequest = HttpRequest(url: string, verb: string, headers: map<string, string>, body: Json)

  /** `/lf/${langflowId}/api/v1/run/${flowId}?stream=${stream}` */
  function Endpoint(langflowId: string, flowId: string, stream: Json): string {
    "/lf/" + langflowId + "/api/v1/run/" + flowId + "?stream=" + ToJsString(stream)
  }

  /**
   * The endpoint names the collection and the flow in fixed positions: for
   * identifiers without "/" they are read back by splitting on "/"; a boolean
   * flag is written "true" or "false".
   */
  lemma EndpointParts(langflowId: string, flowId: string, stream: Json)
    requires '/' !in langflowId && '/' !in flowId && '/' !in ToJsString(stream)
    ensures Split(Endpoint(langflowId, flowId, stream), '/') ==
      ["", "lf", langflowId, "api", "v1", "run", flowId + "?stream=" + ToJsString(stream)]
    ensures stream.JBool? ==> ToJsString(stream) == (if stream.b then "true" else "false")
  {
    var last := flowId + "?stream=" + ToJsString(stream);
    var parts := ["", "lf", langflowId, "api", "v1", "run", last];
    assert '/' !in "?stream=";
    EndpointJoin(langflowId, last);
    assert Join(parts, "/") == Endpoint(langflowId, flowId, stream);
    SplitJoin(parts, '/');
  }

  /** The endpoint is its segments joined with "/". */
  lemma EndpointJoin(langflowId: string, last: string)
    ensures Join(["", "lf", langflowId, "api", "v1", "run", last], "/") ==
      "/lf/" + langflowId + "/api/v1/run/" + last
  {
    var parts := ["", "lf", langflowId, "api", "v1", "run", last];
    assert parts[6..] == [last];
    assert Join(parts[5..], "/") == "run" + "/" + last by { assert parts[5..][1..] == parts[6..]; }
    assert Join(parts[4..], "/") == "v1" + "/" + ("run" + "/" + last) by { assert parts[4..][1..] == parts[5..]; }
    assert Join(parts[3..], "/") == "api" + "/" + ("v1" + "/" + ("run" + "/" + last)) by { assert parts[3..][1..] == parts[4..]; }
    assert Join(parts[2..], "/") == langflowId + "/" + ("api" + "/" + ("v1" + "/" + ("run" + "/" + last))) by { assert parts[2..][1..] == parts[3..]; }
    assert Join(parts[1..], "/") == "lf" + "/" + (langflowId + "/" + ("api" + "/" + ("v1" + "/" + ("run" + "/" + last)))) by { assert parts[1..][1..] == parts[2..]; }
    assert Join(parts, "/") == "" + "/" + ("lf" + "/" + (langflowId + "/" + ("api" + "/" + ("v1" + "/" + ("run" + "/" + last)))));
    assert "" + "/" + ("lf" + "/" + (langflowId + "/" + ("api" + "/" + ("v1" + "/" + ("run" + "/" + last)))))
        == ("" + "/" + "lf" + "/") + langflowId + ("/" + "api" + "/" + "v1" + "/" + "run" + "/") + last;
    assert "" + "/" + "lf" + "/" == "/lf/";
    assert "/" + "api" + "/" + "v1" + "/" + "run" + "/" == "/api/v1/run/";
  }

  /** `{input_value, input_type, output_type, tweaks}` */
  function RequestBody(inputValue: Json, inputType: Json, outputType: Json, tweaks: Json): Json {
    JObj([("input_value", inputValue), ("input_type", inputType),
          ("output_type", outputType), ("tweaks", tweaks)])
  }

  /** The request body carries its four arguments unchanged, under the API's field names. */
  lemma RequestBodyFields(inputValue: Json, inputType: Json, outputType: Json, tweaks: Json)
    ensures var body := RequestBody(inputValue, inputType, outputType, tweaks);
      && Member(body, Key("input_value")) == Some(inputValue)
      && Member(body, Key("input_type")) == Some(inputType)
      && Member(body, Key("output_type")) == Some(outputType)
      && Member(body, Key("tweaks")) == Some(tweaks)
  {
    var m3: seq<(string, Json)> := [("tweaks", tweaks)];
    var m2 := [("output_type", outputType)] + m3;
    var m1 := [("input_type", inputType)] + m2;
    var m0 := [("input_value", inputValue)] + m1;
    assert RequestBody(inputValue, inputType, outputType, tweaks).members == m0;
    assert "input_value"[0] != "output_type"[0];
    LookupCons("tweaks", tweaks, [], "tweaks");
    LookupCons("output_type", outputType, m3, "output_type");
    LookupCons("output_type", outputType, m3, "tweaks");
    LookupCons("input_type", inputType, m2, "input_type");
    LookupCons("input_type", inputType, m2, "output_type");
    LookupCons("input_type", inputType, m2, "tweaks");
    LookupCons("input_value", inputValue, m1, "input_value");
    LookupCons("input_value", inputValue, m1, "input_type");
    LookupCons("input_value", inputValue, m1, "output_type");
    LookupCons("input_value", inputValue, m1, "tweaks");
  }

  /** Looking a name up in an object's members: the first member, or the rest. */
  lemma LookupCons(key: string, value: Json, rest: seq<(string, Json)>, name: string)
    ensures Lookup([(key, value)] + rest, name) == if key == name then Some(value) else Lookup(rest, name)
  {
    assert ([(key, value)] + rest)[1..] == rest;
  }

  /** The default `headers` argument of `post`. */
  const ContentTypeHeaders: map<string, string> := map["Content-Type" := "application/json"]

  /** The headers every request of the core carries. */
  function AuthorizedHeaders(applicationToken: string): map<string, string> {
    ContentTypeHeaders["Authorization" := "Bearer " + applicationToken]
  }

  /** The message of the Error thrown on a non-OK status. */
  function ErrorMessage(status: nat, statusText: string, body: Json): string {
    NatToString(status) + " " + statusText + " - " + Stringify(body)
  }

  /**
   * The message opens with the status, which reads back as the status code,
   * and ends with the serialized body.
   */
  lemma ErrorMessageStatus(status: nat, statusText: string, body: Json)
    ensures DigitPrefix(ErrorMessage(status, statusText, body)) == NatToString(status)
    ensures ParseNat(DigitPrefix(ErrorMessage(status, statusText, body))) == status
    ensures var m := ErrorMessage(status, statusText, body);
      |Stringify(body)| <= |m| && m[|m| - |Stringify(body)|..] == Stringify(body)
  {
    MessageParts(NatToString(status), statusText, Stringify(body));
    NatToStringRoundTrip(status);
  }

  /** A run of digits, a space, some text, " - " and a tail: the digits read off the front, the tail off the back. */
  lemma MessageParts(digits: string, text: string, tail: string)
    requires forall i :: 0 <= i < |digits| ==> IsDigit(digits[i])
    ensures DigitPrefix(digits + " " + text + " - " + tail) == digits
    ensures var m := digits + " " + text + " - " + tail;
      |tail| <= |m| && m[|m| - |tail|..] == tail
  {
    var rest := " " + text + " - " + tail;
    assert digits + " " + text + " - " + tail == digits + rest;
    DigitPrefixOfDigits(digits, rest);
    var m := digits + " " + text + " - " + tail;
    assert m == (digits + " " + text + " - ") + tail;
  }

  /**
   * What `post` returns or throws for a given outcome of its `fetch`. The body
   * is parsed before the status is looked at, so a body that is not JSON
   * fails with the parse error whatever the status.
   */
  function PostResult(reply: FetchOutcome): (r: Result<Json, string>)
    ensures r.Success? <==> reply.Answered? && IsOk(reply.status) && reply.body.Success?
    ensures r.Success? ==> r.value == reply.body.value
    ensures reply.Answered? && !IsOk(reply.status) && reply.body.Success? ==>
      r == Failure(ErrorMessage(reply.status, reply.statusText, reply.body.value))
  {
    match reply
    case Rejected(m) => Failure(m)
    case Answered(status, statusText, body) =>
      match body
      case Failure(m) => Failure(m)
      case Success(j) => if IsOk(status) then Success(j) else Failure(ErrorMessage(status, statusText, j))
  }

  /** `outputs[0].outputs[0].artifacts.stream_url` */
  const StreamUrlPath: seq<Seg> :=
    [Key("outputs"), Index(0), Key("outputs"), Index(0), Key("artifacts"), Key("stream_url")]

  /** `outputs[0].outputs[0].outputs.message.message.text` */
  const ReplyPath: seq<Seg> :=
    [Key("outputs"), Index(0), Key("outputs"), Index(0), Key("outputs"), Key("message"), Key("message"), Key("text")]

  /** `stream && initResponse?.outputs?.[0]?.outputs?.[0]?.artifacts?.stream_url` */
  predicate OpensStream(stream: Json, initResponse: Json) {
    Truthy(Some(stream)) && Truthy(WalkOpt(Some(initResponse), StreamUrlPath))
  }

  /**
   * The callbacks `runFlow` fires: `handleStream` called with the stream URL,
   * or `onError` told that the flow failed.
   */
  datatype FlowEvent = StreamOpened(streamUrl: Json) | ErrorReported(message: string)

  const SessionError: string := "Error initiating session"

  /**
   * What `runFlow` returns or throws. `streamThrow` is what `handleStream`
   * throws before returning (`new EventSource(streamUrl)` failing), or `None`
   * when it returns; the `try` covers that call, so its error is rethrown too.
   */
  function RunFlowResult(stream: Json, init: Result<Json, string>, streamThrow: Option<string>): (r: Result<Json, string>)
    ensures r.Failure? <==>
      init.Failure? || (OpensStream(stream, init.value) && streamThrow.Some?)
    ensures r.Success? ==> r == init
    ensures init.Failure? ==> r == init
    ensures r.Failure? && init.Success? ==> r.error == streamThrow.value
  {
    match init
    case Failure(_) => init
    case Success(resp) =>
      if OpensStream(stream, resp) && streamThrow.Some? then Failure(streamThrow.value) else init
  }

  /**
   * What `runFlow` does besides returning: the stream is opened first when
   * asked for, and `onError` (when given) is told once, last, exactly when
   * `runFlow` throws.
   */
  function RunFlowEvents(stream: Json, hasOnError: bool, init: Result<Json, string>, streamThrow: Option<string>)
    : (events: seq<FlowEvent>)
    ensures |events| <= 2
    ensures (|events| > 0 && events[0].StreamOpened?) <==> init.Success? && OpensStream(stream, init.value)
    ensures (|events| > 0 && events[|events| - 1].ErrorReported?) <==>
      hasOnError && RunFlowResult(stream, init, streamThrow).Failure?
    ensures |events| == 2 ==> events[0].StreamOpened? && events[1].ErrorReported?
    ensures forall i :: 0 <= i < |events| && events[i].ErrorReported? ==> events[i].message == SessionError
    ensures |events| > 0 && events[0].StreamOpened? ==>
      init.Success? && Some(events[0].streamUrl) == WalkOpt(Some(init.value), StreamUrlPath)
  {
    var reported := if hasOnError then [ErrorReported(SessionError)] else [];
    match init
    case Failure(_) => reported
    case Success(resp) =>
      if OpensStream(stream, resp) then
        [StreamOpened(WalkOpt(Some(resp), StreamUrlPath).value)] + (if streamThrow.Some? then reported else [])
      else []
  }

  /** The `headers` object `post` is handed; `post` writes the Authorization entry into it. */
  class Headers {
    var entries: map<string, string>

    /** The default argument `{ "Content-Type": "application/json" }`. */
    constructor Default()
      ensures entries == ContentTypeHeaders
    {
      entries := ContentTypeHeaders;
    }
  }

  class LangflowClient {
    const baseUrl: string
    const applicationToken: string

    constructor(baseUrl: string, applicationToken: string)
      ensures this.baseUrl == baseUrl && this.applicationToken == applicationToken
    {
      this.baseUrl := baseUrl;
      this.applicationToken := applicationToken;
    }

    /**
     * `post(endpoint, body, headers)`: sets the bearer token on the caller's
     * headers, overwriting any Authorization entry, sends the request, and
     * returns the parsed body or throws.
     */
    method Post(endpoint: string, body: Json, headers: Headers, reply: FetchOutcome)
      returns (sent: HttpRequest, result: Result<Json, string>)
      modifies headers
      ensures headers.entries == old(headers.entries)["Authorization" := "Bearer " + applicationToken]
      ensures sent == HttpRequest(baseUrl + endpoint, "POST", headers.entries, body)
      ensures result == PostResult(reply)
    {
      headers.entries := headers.entries["Authorization" := "Bearer " + applicationToken];
      var url := baseUrl + endpoint;
      sent := HttpRequest(url, "POST", headers.entries, body);
      match reply {
        case Rejected(m) =>
          result := Failure(m);
        case Answered(status, statusText, parsed) =>
          if parsed.Failure? {
            result := Failure(parsed.error);
          } else if !IsOk(status) {
            result := Failure(ErrorMessage(status, statusText, parsed.value));
          } else {
            result := Success(parsed.value);
          }
      }
    }

    /** `initiateSession(...)`: one POST to the run endpoint with the default headers. */
    method InitiateSession(flowId: string, langflowId: string, inputValue: Json, inputType: Json,
                           outputType: Json, stream: Json, tweaks: Json, reply: FetchOutcome)
      returns (sent: HttpRequest, result: Result<Json, string>)
      ensures sent == HttpRequest(baseUrl + Endpoint(langflowId, flowId, stream), "POST",
                                  AuthorizedHeaders(applicationToken),
                                  RequestBody(inputValue, inputType, outputType, tweaks))
      ensures result == PostResult(reply)
    {
      var endpoint := Endpoint(langflowId, flowId, stream);
      var headers := new Headers.Default();
      sent, result := Post(endpoint, RequestBody(inputValue, inputType, outputType, tweaks), headers, reply);
    }

    /**
     * `runFlow(...)`: initiates the session, opens the event stream when asked
     * to and a stream URL came back, and returns the initiating response
     * unchanged; when the session or the opening of the stream throws, it
     * reports to `onError` (when one is given) and rethrows the same error.
     */
    method RunFlow(flowIdOrName: string, langflowId: string, inputValue: Json, inputType: Json,
                   outputType: Json, tweaks: Json, stream: Json, hasOnError: bool, reply: FetchOutcome,
                   streamThrow: Option<string>)
      returns (sent: HttpRequest, result: Result<Json, string>, events: seq<FlowEvent>)
      ensures sent == HttpRequest(baseUrl + Endpoint(langflowId, flowIdOrName, stream), "POST",
                                  AuthorizedHeaders(applicationToken),
                                  RequestBody(inputValue, inputType, outputType, tweaks))
      ensures result == RunFlowResult(stream, PostResult(reply), streamThrow)
      ensures events == RunFlowEvents(stream, hasOnError, PostResult(reply), streamThrow)
    {
      var init;
      sent, init := InitiateSession(flowIdOrName, langflowId, inputValue, inputType, outputType, stream, tweaks, reply);
      events := [];
      if init.Failure? {
        if hasOnError {
          events := [ErrorReported(SessionError)];
        }
        result := init;
        return;
      }
      var initResponse := init.value;
      result := Success(initResponse);
      if Truthy(Some(stream)) && Truthy(WalkOpt(Some(initResponse), StreamUrlPath)) {
        var streamUrl := WalkOpt(Some(initResponse), StreamUrlPath).value;
        events := [StreamOpened(streamUrl)];
        if streamThrow.Some? {
          // `this.handleStream(...)` threw inside the `try`
          if hasOnError {
            events := events + [ErrorReported(SessionError)];
          }
          result := Failure(streamThrow.value);
        }
      }
    }
  }

  /** The handler's answer: a status and the JSON body `NextResponse.json` sends. */
  datatype HttpReply = HttpReply(status: nat, body: Json)

  function ErrorReply(status: nat, message: string): HttpReply {
    HttpReply(status, JObj([("error", JStr(message))]))
  }

  const MissingInput: string := "inputValue is required."

  /** The TypeError V8 throws when the request body is JSON `null` and is destructured. */
  const NullBody: string := "Cannot destructure property 'inputValue' of '(intermediate value)' as it is null."

  /** The request fields after destructuring, defaults applied. */
  datatype ChatArgs = ChatArgs(inputValue: Json, inputType: Json, outputType: Json, stream: Json)

  /**
   * `const {inputValue, inputType = "chat", outputType = "chat", stream = false} = await req.json()`
   * followed by the `!inputValue` check. A default applies only to a missing
   * field, not to a `null` one.
   */
  function Accept(request: Result<Json, string>): (r: Result<ChatArgs, HttpReply>)
    ensures r.Failure? && r.error.status == 400 <==>
      request.Success? && request.value != JNull && !Truthy(Member(request.value, Key("inputValue")))
    ensures r.Failure? && r.error.status == 400 ==> r.error == ErrorReply(400, MissingInput)
    ensures r.Failure? ==> r.error.status in {400, 500}
    ensures r.Success? ==>
      && request.Success?
      && Some(r.value.inputValue) == Member(request.value, Key("inputValue"))
      && Truthy(Some(r.value.inputValue))
    ensures r.Success? ==>
      && request.Success?
      && r.value.inputType == Member(request.value, Key("inputType")).GetOr(JStr("chat"))
      && r.value.outputType == Member(request.value, Key("outputType")).GetOr(JStr("chat"))
      && r.value.stream == Member(request.value, Key("stream")).GetOr(JBool(false))
  {
    match request
    case Failure(m) => Failure(ErrorReply(500, m))
    case Success(body) =>
      if body == JNull then Failure(ErrorReply(500, NullBody))
      else
        var inputValue := Member(body, Key("inputValue"));
        if !Truthy(inputValue) then Failure(ErrorReply(400, MissingInput))
        else Success(ChatArgs(inputValue.value,
                              Member(body, Key("inputType")).GetOr(JStr("chat")),
                              Member(body, Key("outputType")).GetOr(JStr("chat")),
                              Member(body, Key("stream")).GetOr(JBool(false))))
  }

  /** `{message: text}` as sent: `JSON.stringify` leaves out a member whose value is `undefined`. */
  function MessageBody(text: Option<Json>): Json {
    match text
    case None => JObj([])
    case Some(j) => JObj([("message", j)])
  }

  /** The handler's reply once `runFlow` has returned `response`. */
  function ShapeReply(stream: Json, response: Json): HttpReply {
    if !Truthy(Some(stream)) && Truthy(ReadOpt(Some(response), Key("outputs"))) then
      match Walk(Some(response), ReplyPath)
      case Failure(m) => ErrorReply(500, m)
      case Success(text) => HttpReply(200, MessageBody(text))
    else HttpReply(200, JObj([("response", response)]))
  }

  /**
   * Without streaming and with `outputs` present, the reply is the text at the
   * end of the reply path, or a 500 exactly when an intermediate value on that
   * path is missing; otherwise the raw response is passed back.
   */
  lemma ShapeReplyCases(stream: Json, response: Json)
    ensures var r := ShapeReply(stream, response);
      var extract := !Truthy(Some(stream)) && Truthy(ReadOpt(Some(response), Key("outputs")));
      && (!extract ==> r == HttpReply(200, JObj([("response", response)])))
      && (extract ==> (r.status == 500 <==>
            exists i :: 0 <= i < |ReplyPath| && Nullish(WalkOpt(Some(response), ReplyPath[..i]))))
      && (extract && r.status != 500 ==> r == HttpReply(200, MessageBody(WalkOpt(Some(response), ReplyPath))))
  {
    WalkSucceedsIff(Some(response), ReplyPath);
  }

  /** The non-streaming reply shape the flow returns for a chat message. */
  function Envelope(text: string): Json {
    JObj([("outputs", JArr([
      JObj([("outputs", JArr([
        JObj([("outputs", JObj([
          ("message", JObj([("message", JObj([("text", JStr(text))]))]))]))])]))])]))])
  }

  /** A well-formed non-streaming reply yields its text as `{message}` with status 200. */
  lemma EnvelopeReply(stream: Json, text: string)
    requires !Truthy(Some(stream))
    ensures ShapeReply(stream, Envelope(text)) == HttpReply(200, JObj([("message", JStr(text))]))
  {
    EnvelopeWalk(text);
    ExtractedReply(stream, Envelope(text), JStr(text));
  }

  /** The reply path leads to the text of an envelope. */
  lemma EnvelopeWalk(text: string)
    ensures Truthy(ReadOpt(Some(Envelope(text)), Key("outputs")))
    ensures Walk(Some(Envelope(text)), ReplyPath) == Success(Some(JStr(text)))
  {
    var t := JStr(text);
    var m7 := JObj([("text", t)]);
    var m6 := JObj([("message", m7)]);
    var m5 := JObj([("message", m6)]);
    var o4 := JObj([("outputs", m5)]);
    var a3 := JArr([o4]);
    var o2 := JObj([("outputs", a3)]);
    var a1 := JArr([o2]);
    var e := JObj([("outputs", a1)]);
    assert e == Envelope(text);
    var p := ReplyPath;
    forall k | 0 <= k < 8
      ensures p[k..][1..] == p[k + 1..]
    {
    }
    KeyStep("text", t, p[7..]);
    KeyStep("message", m7, p[6..]);
    KeyStep("message", m6, p[5..]);
    KeyStep("outputs", m5, p[4..]);
    IndexStep(o4, p[3..]);
    KeyStep("outputs", a3, p[2..]);
    IndexStep(o2, p[1..]);
    KeyStep("outputs", a1, p);
  }

  /** Reading the only member of a one-member object. */
  lemma KeyStep(name: string, x: Json, path: seq<Seg>)
    requires path != [] && path[0] == Key(name)
    ensures Walk(Some(JObj([(name, x)])), path) == Walk(Some(x), path[1..])
    ensures ReadOpt(Some(JObj([(name, x)])), Key(name)) == Some(x)
  {
  }

  /** Reading the only element of a one-element array. */
  lemma IndexStep(x: Json, path: seq<Seg>)
    requires path != [] && path[0] == Index(0)
    ensures Walk(Some(JArr([x])), path) == Walk(Some(x), path[1..])
  {
  }

  /** The reply once the text has been found at the end of the reply path. */
  lemma ExtractedReply(stream: Json, response: Json, text: Json)
    ensures (&& !Truthy(Some(stream))
             && Truthy(ReadOpt(Some(response), Key("outputs")))
             && Walk(Some(response), ReplyPath) == Success(Some(text)))
      ==> ShapeReply(stream, response) == HttpReply(200, JObj([("message", text)]))
  {
  }

  /**
   * Streaming asked for, a stream URL returned, and opening the stream throws:
   * the stream is attempted, `onError` is told, and the handler answers 500
   * with the thrown message.
   */
  lemma StreamThrowAnswered(stream: Json, response: Json, message: string)
    ensures OpensStream(stream, response) ==>
      && RunFlowEvents(stream, true, Success(response), Some(message)) ==
           [StreamOpened(WalkOpt(Some(response), StreamUrlPath).value), ErrorReported(SessionError)]
      && Respond(stream, RunFlowResult(stream, Success(response), Some(message))) == ErrorReply(500, message)
  {
  }

  /** The handler's reply for the outcome of `runFlow`. */
  function Respond(stream: Json, result: Result<Json, string>): HttpReply {
    match result
    case Failure(m) => ErrorReply(500, m)
    case Success(response) => ShapeReply(stream, response)
  }

  /**
   * `POST(req)`: validates the request, runs the flow once with the fixed
   * identifiers and tweaks, and shapes the reply; any error thrown on the way
   * becomes a 500 carrying its message. A rejected request sends nothing.
   */
  method Handle(request: Result<Json, string>, applicationToken: string, reply: FetchOutcome,
                streamThrow: Option<string>)
    returns (response: HttpReply, sent: Option<HttpRequest>, events: seq<FlowEvent>)
    ensures Accept(request).Failure? ==>
      response == Accept(request).error && sent == None && events == []
    ensures Accept(request).Success? ==>
      var args := Accept(request).value;
      && sent == Some(HttpRequest(BaseUrl + Endpoint(LangflowId, FlowIdOrName, args.stream), "POST",
                                  AuthorizedHeaders(applicationToken),
                                  RequestBody(args.inputValue, args.inputType, args.outputType, Tweaks)))
      && events == RunFlowEvents(args.stream, true, PostResult(reply), streamThrow)
      && response == Respond(args.stream, RunFlowResult(args.stream, PostResult(reply), streamThrow))
  {
    var accepted := Accept(request);
    if accepted.Failure? {
      return accepted.error, None, [];
    }
    var args := accepted.value;
    var client := new LangflowClient(BaseUrl, applicationToken);
    var req, result;
    req, result, events := client.RunFlow(FlowIdOrName, LangflowId, args.inputValue, args.inputType,
                                          args.outputType, Tweaks, args.stream, true, reply,
                                          streamThrow);
    sent := Some(req);
    match result {
      case Failure(m) =>
        response := ErrorReply(500, m);
      case Success(initResponse) =>
        response := ShapeReply(args.stream, initResponse);
    }
  }
}
