/** The relay between the MannSahay / MannMitra chat front end and a local Ollama server:
    it builds the outbound chat-completion request from the caller's transcript, maps the
    backend's outcome to a `ChatResponse`, selects the persona prompt per endpoint, and maps
    the liveness probe to "online" / "offline".

    The HTTP client is not modelled: a chat call is a function `backend` from the call the
    relay makes to the outcome the client reports, and the probe takes that outcome as input. */
module Relay {
  import opened Wrappers
  import opened Json
  import opened Decimal

  // ---------------------------------------------------------------------------------------
  // Shapes exchanged with the front end and with the backend

  /** One turn of a conversation; the role is free text, as in the source. */
  datatype Message = Message(role: string, content: string)

  /** The body a chat endpoint receives. */
  datatype ChatRequest = ChatRequest(userMessage: string, history: seq<Message>)

  /** The body a chat endpoint returns; every field may be null. */
  datatype ChatResponse = ChatResponse(
    reply: Option<string>,
    newHistory: Option<seq<Message>>,
    error: Option<string>)

  /** The JSON body posted to the backend. */
  datatype OllamaRequest = OllamaRequest(model: string, messages: seq<Message>, stream: bool)

  /** A POST to the backend: the path under the client's base URL and the JSON body. */
  datatype PostCall = PostCall(path: string, body: OllamaRequest)

  /** What the client reports for a POST, in the order the relay's handlers test it:
      no connection, a status the client rejects, any other exception (including a body
      that is not JSON), or a decoded JSON payload. */
  datatype Outcome =
    | ConnectFail
    | StatusFail(code: nat, body: string)
    | OtherFail(detail: string)
    | Ok(payload: Json)

  const ModelName: string := "llama3:8b"
  const CompletionsPath: string := "/v1/chat/completions"

  /** The two persona prompts; their text is configuration, so only their identity matters. */
  const MannSahayPrompt: string := "MANNSAHAY_PROMPT"
  const MannMitraPrompt: string := "MANNMITRA_PROMPT"

  function SystemMessage(prompt: string): Message {
    Message("system", prompt)
  }

  function UserMessage(content: string): Message {
    Message("user", content)
  }

  function AssistantMessage(content: string): Message {
    Message("assistant", content)
  }

  // ---------------------------------------------------------------------------------------
  // Outbound construction

  /** The outbound message list: the persona prompt as a system message, the transcript
      message by message (each `msg.dict()`), then the new user message. */
  method BuildMessages(systemPrompt: string, history: seq<Message>, newUserMessage: Message)
    returns (messages: seq<Message>)
    ensures messages == [SystemMessage(systemPrompt)] + history + [newUserMessage]
    ensures |messages| == |history| + 2
    ensures messages[0] == SystemMessage(systemPrompt)
    ensures forall i :: 0 <= i < |history| ==> messages[i + 1] == history[i]
    ensures messages[|history| + 1] == newUserMessage
  {
    messages := [SystemMessage(systemPrompt)];
    var dumped: seq<Message> := [];
    for i := 0 to |history|
      invariant dumped == history[..i]
    {
      dumped := dumped + [history[i]];
    }
    assert dumped == history;
    messages := messages + dumped;
    messages := messages + [newUserMessage];
  }

  // ---------------------------------------------------------------------------------------
  // Reading the reply out of the backend payload

  /** The exception Python raises while subscripting the payload or validating the reply,
      with the text `str(e)` would give where the model knows it. */
  datatype ShapeError =
    | KeyError(key: string)
    | IndexError(text: string)
    | TypeError(text: string)
    | ValidationError

  function ShapeErrorDetail(e: ShapeError): string {
    match e
    case KeyError(key) => key
    case IndexError(text) => text
    case TypeError(text) => text
    case ValidationError => "1 validation error for Message"
  }

  /** The name Python gives the type of a decoded value. */
  function TypeName(j: Json): string {
    match j
    case JNull => "NoneType"
    case JBool(_) => "bool"
    case JNumber(_) => "int"
    case JString(_) => "str"
    case JArray(_) => "list"
    case JObject(_) => "dict"
  }

  /** `j[key]` for a string key. */
  function Field(j: Json, key: string): Result<Json, ShapeError> {
    match j
    case JObject(fields) =>
      if key in fields then Success(fields[key]) else Failure(KeyError("'" + key + "'"))
    case JArray(_) => Failure(TypeError("list indices must be integers or slices, not str"))
    case JString(_) => Failure(TypeError("string indices must be integers, not 'str'"))
    case _ => Failure(TypeError("'" + TypeName(j) + "' object is not subscriptable"))
  }

  /** `j[0]`: the first element of a list or the first character of a string; a dict has
      no integer keys after JSON decoding. */
  function First(j: Json): Result<Json, ShapeError> {
    match j
    case JArray(items) =>
      if |items| > 0 then Success(items[0]) else Failure(IndexError("list index out of range"))
    case JString(s) =>
      if |s| > 0 then Success(JString(s[..1])) else Failure(IndexError("string index out of range"))
    case JObject(_) => Failure(KeyError("0"))
    case _ => Failure(TypeError("'" + TypeName(j) + "' object is not subscriptable"))
  }

  /** The payload carries reply `c` at `choices[0].message.content`. */
  ghost predicate ReplyAt(payload: Json, c: string) {
    payload.JObject? && "choices" in payload.fields &&
    var choices := payload.fields["choices"];
    choices.JArray? && |choices.items| > 0 &&
    var choice := choices.items[0];
    choice.JObject? && "message" in choice.fields &&
    var message := choice.fields["message"];
    message.JObject? && "content" in message.fields &&
    message.fields["content"] == JString(c)
  }

  /** `payload['choices'][0]['message']['content']`, which must then pass as the `str`
      content of an assistant `Message`. It succeeds exactly on payloads that carry a reply
      at that path, and the reply is the string found there. */
  function ExtractReply(payload: Json): (r: Result<string, ShapeError>)
    ensures forall c :: r == Success(c) <==> ReplyAt(payload, c)
  {
    var choices :- Field(payload, "choices");
    var choice :- First(choices);
    var message :- Field(choice, "message");
    var content :- Field(message, "content");
    if content.JString? then Success(content.s) else Failure(ValidationError)
  }

  // ---------------------------------------------------------------------------------------
  // Outcome mapping

  // One literal in the source; written as two here so that proofs can index its characters.
  const ConnectErrorText: string :=
    "Offline AI server is not running." + " Please make sure Ollama is installed and running."
  const StatusErrorPrefix: string := "Ollama server error: "
  const UnexpectedErrorPrefix: string := "An unexpected error occurred: "

  function StatusErrorText(code: nat, body: string): string {
    StatusErrorPrefix + NatToString(code) + " - " + body
  }

  function UnexpectedErrorText(detail: string): string {
    UnexpectedErrorPrefix + detail
  }

  /** A failed exchange: no reply, the transcript handed back as it came, and the error. */
  function Failed(history: seq<Message>, error: string): ChatResponse {
    ChatResponse(None, Some(history), Some(error))
  }

  /** The response for one exchange. A transcript always comes back; exactly one of reply
      and error is set; a reply extends the transcript by the user turn and the assistant
      turn, and an error leaves it exactly as it was. */
  function Respond(history: seq<Message>, userMessage: string, outcome: Outcome): (r: ChatResponse)
    ensures r.newHistory.Some?
    ensures r.reply.Some? <==> r.error.None?
    ensures r.reply.Some? <==> outcome.Ok? && ExtractReply(outcome.payload).Success?
    ensures r.reply.Some? ==>
      r.newHistory.value == history + [UserMessage(userMessage), AssistantMessage(r.reply.value)]
    ensures r.error.Some? ==> r.newHistory.value == history
  {
    match outcome
    case ConnectFail => Failed(history, ConnectErrorText)
    case StatusFail(code, body) => Failed(history, StatusErrorText(code, body))
    case OtherFail(detail) => Failed(history, UnexpectedErrorText(detail))
    case Ok(payload) =>
      match ExtractReply(payload)
      case Success(reply) =>
        ChatResponse(
          Some(reply),
          Some(history + [UserMessage(userMessage), AssistantMessage(reply)]),
          None)
      case Failure(e) => Failed(history, UnexpectedErrorText(ShapeErrorDetail(e)))
  }

  /** One exchange with the backend under a persona prompt: build the request, post it
      once, and map what comes back. `sent` is the call handed to the backend. */
  method GetOllamaResponse(
    systemPrompt: string,
    history: seq<Message>,
    userMessageContent: string,
    backend: PostCall -> Outcome)
    returns (sent: PostCall, response: ChatResponse)
    ensures sent.path == CompletionsPath
    ensures sent.body.model == ModelName && !sent.body.stream
    ensures sent.body.messages ==
      [SystemMessage(systemPrompt)] + history + [UserMessage(userMessageContent)]
    ensures response == Respond(history, userMessageContent, backend(sent))
  {
    var newUserMessage := UserMessage(userMessageContent);
    var messages := BuildMessages(systemPrompt, history, newUserMessage);
    var requestBody := OllamaRequest(ModelName, messages, false);
    sent := PostCall(CompletionsPath, requestBody);
    var outcome := backend(sent);
    response := Respond(history, userMessageContent, outcome);
  }

  predicate StartsWith(s: string, prefix: string) {
    |prefix| <= |s| && s[..|prefix|] == prefix
  }

  /** A success with reply `c` returns `c`, no error, and the transcript grown by exactly
      the user turn and then the assistant turn. */
  lemma SuccessfulExchange(history: seq<Message>, userMessage: string, payload: Json, c: string)
    requires ReplyAt(payload, c)
    ensures Respond(history, userMessage, Ok(payload)) ==
      ChatResponse(Some(c), Some(history + [UserMessage(userMessage), AssistantMessage(c)]), None)
    ensures var h := Respond(history, userMessage, Ok(payload)).newHistory.value;
      |h| == |history| + 2 && h[..|history|] == history &&
      h[|history|] == UserMessage(userMessage) && h[|history| + 1] == AssistantMessage(c)
  {
  }

  /** No connection: no reply, the fixed "not running" text, the transcript unchanged. */
  lemma ConnectFailure(history: seq<Message>, userMessage: string)
    ensures Respond(history, userMessage, ConnectFail) ==
      ChatResponse(None, Some(history), Some(ConnectErrorText))
  {
  }

  /** A rejected status: no reply, the transcript unchanged, and an error text from which
      the status code and the backend's body text can both be read back. */
  lemma StatusFailure(history: seq<Message>, userMessage: string, code: nat, body: string)
    ensures var r := Respond(history, userMessage, StatusFail(code, body));
      r.reply.None? && r.newHistory == Some(history) && r.error.Some? &&
      StartsWith(r.error.value, StatusErrorPrefix) &&
      ParseStatusError(r.error.value) == Some((code, body))
  {
    StatusErrorReadBack(code, body);
  }

  /** Any other exception, and a payload without a string at `choices[0].message.content`:
      no reply, the transcript unchanged, and the generic error prefix. */
  lemma UnexpectedFailure(history: seq<Message>, userMessage: string, outcome: Outcome)
    requires outcome.OtherFail? || (outcome.Ok? && forall c :: !ReplyAt(outcome.payload, c))
    ensures var r := Respond(history, userMessage, outcome);
      r.reply.None? && r.newHistory == Some(history) &&
      r.error.Some? && StartsWith(r.error.value, UnexpectedErrorPrefix)
  {
  }

  /** The payload shapes the relay does not accept, each with the exception it raises. */
  lemma MissingChoices(history: seq<Message>, userMessage: string, fields: map<string, Json>)
    requires "choices" !in fields
    ensures Respond(history, userMessage, Ok(JObject(fields))) ==
      ChatResponse(None, Some(history), Some(UnexpectedErrorText("'choices'")))
  {
    assert "'" + "choices" + "'" == "'choices'";
  }

  lemma EmptyChoices(history: seq<Message>, userMessage: string, fields: map<string, Json>)
    requires "choices" in fields && fields["choices"] == JArray([])
    ensures Respond(history, userMessage, Ok(JObject(fields))) ==
      ChatResponse(None, Some(history), Some(UnexpectedErrorText("list index out of range")))
  {
  }

  lemma NonStringContent(history: seq<Message>, userMessage: string, payload: Json, content: Json)
    requires payload.JObject? && "choices" in payload.fields
    requires payload.fields["choices"].JArray? && |payload.fields["choices"].items| > 0
    requires var choice := payload.fields["choices"].items[0];
      choice.JObject? && "message" in choice.fields && choice.fields["message"].JObject? &&
      "content" in choice.fields["message"].fields &&
      choice.fields["message"].fields["content"] == content
    requires !content.JString?
    ensures var r := Respond(history, userMessage, Ok(payload));
      r.reply.None? && r.newHistory == Some(history) &&
      r.error.Some? && StartsWith(r.error.value, UnexpectedErrorPrefix)
  {
  }

  /** The native Ollama shape `{"message": {"content": c}}` carries no `choices`, so the
      relay reports it as an unexpected error rather than as a reply. */
  lemma NativeShapeIsUnexpected(history: seq<Message>, userMessage: string, c: string)
    ensures var payload := JObject(map["message" := JObject(map["content" := JString(c)])]);
      Respond(history, userMessage, Ok(payload)) ==
      ChatResponse(None, Some(history), Some(UnexpectedErrorText("'choices'")))
  {
    var payload := JObject(map["message" := JObject(map["content" := JString(c)])]);
    assert "choices" !in payload.fields;
    assert "'" + "choices" + "'" == "'choices'";
  }

  /** Reads the status code and the body back out of a status error text. */
  function ParseStatusError(e: string): Option<(nat, string)> {
    if !StartsWith(e, StatusErrorPrefix) then None
    else
      var rest := e[|StatusErrorPrefix|..];
      var k := LeadingDigits(rest);
      if k == 0 || !StartsWith(rest[k..], " - ") then None
      else Some((ParseNat(rest[..k]), rest[k + 3..]))
  }

  /** The status error text determines the status code and the body it was made from. */
  lemma StatusErrorReadBack(code: nat, body: string)
    ensures ParseStatusError(StatusErrorText(code, body)) == Some((code, body))
  {
    var e := StatusErrorText(code, body);
    var digits := NatToString(code);
    assert e == StatusErrorPrefix + (digits + (" - " + body));
    var rest := e[|StatusErrorPrefix|..];
    assert rest == digits + (" - " + body);
    LeadingDigitsOfNumeral(digits, " - " + body);
    assert rest[..|digits|] == digits;
    assert rest[|digits|..] == " - " + body;
    ParseNatToString(code);
  }

  /** The three failure kinds the relay reports. */
  datatype ErrorKind = Unreachable | BackendError | Unexpected

  /** Tells the kind of failure from the error text alone. */
  function ClassifyError(e: string): Option<ErrorKind> {
    if e == ConnectErrorText then Some(Unreachable)
    else if StartsWith(e, StatusErrorPrefix) then Some(BackendError)
    else if StartsWith(e, UnexpectedErrorPrefix) then Some(Unexpected)
    else None
  }

  /** The three error texts are told apart by the kind of failure that produced them. */
  lemma ErrorNamesItsKind(history: seq<Message>, userMessage: string, outcome: Outcome)
    ensures var r := Respond(history, userMessage, outcome);
      r.error.Some? ==>
        ClassifyError(r.error.value) ==
        Some(match outcome
             case ConnectFail => Unreachable
             case StatusFail(_, _) => BackendError
             case _ => Unexpected)
  {
    var r := Respond(history, userMessage, outcome);
    if r.error.Some? {
      var e := r.error.value;
      match outcome
      case ConnectFail =>
      case StatusFail(code, body) =>
        assert e[1] == StatusErrorPrefix[1] == 'l' && ConnectErrorText[1] == 'f';
        assert e[..|StatusErrorPrefix|] == StatusErrorPrefix;
      case _ =>
        assert e[0] == UnexpectedErrorPrefix[0] == 'A';
        assert ConnectErrorText[0] == StatusErrorPrefix[0] == 'O';
        assert e[..|UnexpectedErrorPrefix|] == UnexpectedErrorPrefix;
    }
  }

  // ---------------------------------------------------------------------------------------
  // Persona endpoints

  /** `/chat/mannsahay`: the supportive-guide persona. */
  method ChatMannSahay(request: ChatRequest, backend: PostCall -> Outcome)
    returns (sent: PostCall, response: ChatResponse)
    ensures |sent.body.messages| == |request.history| + 2
    ensures sent.body.messages[0] == SystemMessage(MannSahayPrompt)
    ensures sent.body.messages[1..] == request.history + [UserMessage(request.userMessage)]
    ensures sent.path == CompletionsPath && sent.body.model == ModelName && !sent.body.stream
    ensures response == Respond(request.history, request.userMessage, backend(sent))
  {
    sent, response := GetOllamaResponse(MannSahayPrompt, request.history, request.userMessage, backend);
  }

  /** `/chat/mannmitra`: the casual-friend persona. */
  method ChatMannMitra(request: ChatRequest, backend: PostCall -> Outcome)
    returns (sent: PostCall, response: ChatResponse)
    ensures |sent.body.messages| == |request.history| + 2
    ensures sent.body.messages[0] == SystemMessage(MannMitraPrompt)
    ensures sent.body.messages[1..] == request.history + [UserMessage(request.userMessage)]
    ensures sent.path == CompletionsPath && sent.body.model == ModelName && !sent.body.stream
    ensures response == Respond(request.history, request.userMessage, backend(sent))
  {
    sent, response := GetOllamaResponse(MannMitraPrompt, request.history, request.userMessage, backend);
  }

  /** The two endpoints hand the backend different persona prompts. */
  lemma PersonaPromptsDistinct()
    ensures MannSahayPrompt != MannMitraPrompt
  {
  }

  // ---------------------------------------------------------------------------------------
  // Liveness probe

  /** What the client reports for the probe's GET: any response at all, a connection
      failure, or another exception (which the probe does not catch). */
  datatype ProbeOutcome = Responded(code: nat) | ProbeConnectFail | ProbeOtherFail(detail: string)

  datatype StatusReport = StatusReport(status: string)

  /** The probe's answer, or `None` where the exception propagates out of the endpoint. */
  function CheckOllamaStatus(outcome: ProbeOutcome): (r: Option<StatusReport>)
    ensures r == Some(StatusReport("online")) <==> outcome.Responded?
    ensures r == Some(StatusReport("offline")) <==> outcome.ProbeConnectFail?
    ensures r.None? <==> outcome.ProbeOtherFail?
  {
    match outcome
    case Responded(_) => Some(StatusReport("online"))
    case ProbeConnectFail => Some(StatusReport("offline"))
    case ProbeOtherFail(_) => None
  }
}
