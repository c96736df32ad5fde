/** The Ollama provider with its input/output abstracted: the HTTP exchange and
    the JSON decoder are parameters, so what remains is how the request is
    shaped, how tool descriptions are embedded in the prompt, and how the
    server's answer is classified into a response or an error.
 */
module Provider {
  import opened Wrappers
  import opened Decimal
  import opened Messages

  /** Connection settings and the active model. The HTTP client and the logger are left out. */
  datatype OllamaProvider = OllamaProvider(host: string, port: int, model: string)

  /** The parts of an agent tool the adapter reads. */
  datatype Tool = Tool(name: string, description: string)

  /** Body of a chat request; `messages` keeps a None wherever a message had no wire form. */
  datatype OllamaRequest = OllamaRequest(model: string, messages: seq<Option<OllamaMessage>>, stream: bool)

  /** Decoded body of a chat response; an absent `error` field decodes to "". */
  datatype OllamaResponse = OllamaResponse(message: OllamaMessage, error: string)

  /** What the HTTP layer hands back for one request: one of the three ways it can
      fail before a status is known, or a status code with the whole body read. */
  datatype Exchange =
    | RequestNotCreated
    | RequestNotSent
    | BodyNotRead
    | Received(status: int, body: string)

  /** What the JSON decoder makes of a body. */
  datatype DecodeOutcome = Decoded(response: OllamaResponse) | DecodeFailed

  /** The errors the chat cycle reports, one per failing branch of `apiChat`. */
  datatype ChatError =
    | RequestCreationError
    | RequestSendError
    | ResponseReadError
    | UnexpectedStatus(status: int, body: string)
    | UnmarshalError
    | OllamaError(message: string)

  /** The HTTP round trip: given the URL and the request, the exchange that results. */
  type Transport = (string, OllamaRequest) -> Exchange

  /** The JSON decoder applied to a response body. */
  type Decoder = string -> DecodeOutcome

  const StatusOK: int := 200
  const ChatPath: string := "/api/chat"
  const ToolsHeader: string := "\nAvailable tools:\n"
  const ToolUsageInstruction: string := "\nTo use a tool, respond with: <tool>tool_name|{\"param\":\"value\"}</tool>"

  // ---------------------------------------------------------------------------
  // Tool description embedded in the prompt

  /** One line per tool: "- <name>: <description>\n". */
  function ToolLine(t: Tool): string {
    "- " + t.name + ": " + t.description + "\n"
  }

  /** The tool lines, in the order the tools are given. */
  function ToolLines(tools: seq<Tool>): string {
    if |tools| == 0 then "" else ToolLine(tools[0]) + ToolLines(tools[1..])
  }

  /** The whole text appended to the prompt: header, tool lines, usage instruction.
      Even without tools the header and the instruction are present. */
  function ToolsDescription(tools: seq<Tool>): (d: string)
    ensures |d| >= |ToolsHeader| + |ToolUsageInstruction|
    ensures d[..|ToolsHeader|] == ToolsHeader
    ensures d[|d| - |ToolUsageInstruction|..] == ToolUsageInstruction
    ensures d[|ToolsHeader|..|d| - |ToolUsageInstruction|] == ToolLines(tools)
  {
    var d := ToolsHeader + ToolLines(tools) + ToolUsageInstruction;
    assert d[..|ToolsHeader|] == ToolsHeader;
    assert d[|d| - |ToolUsageInstruction|..] == ToolUsageInstruction;
    assert d[|ToolsHeader|..|d| - |ToolUsageInstruction|] == ToolLines(tools);
    d
  }

  /** The lines of two tool lists in a row are the lines of their concatenation. */
  lemma {:induction false} ToolLinesAppend(a: seq<Tool>, b: seq<Tool>)
    ensures ToolLines(a + b) == ToolLines(a) + ToolLines(b)
  {
    if |a| == 0 {
      assert a + b == b;
    } else {
      assert (a + b)[0] == a[0];
      assert (a + b)[1..] == a[1..] + b;
      ToolLinesAppend(a[1..], b);
    }
  }

  /** Tool i's line sits between the lines of the tools before it and those after it. */
  lemma {:induction false} ToolLineInOrder(tools: seq<Tool>, i: int)
    requires 0 <= i < |tools|
    ensures ToolLines(tools) == ToolLines(tools[..i]) + ToolLine(tools[i]) + ToolLines(tools[i + 1..])
  {
    var before, after := tools[..i], tools[i + 1..];
    var rest := [tools[i]] + after;
    assert rest[0] == tools[i] && rest[1..] == after;
    assert ToolLines(rest) == ToolLine(tools[i]) + ToolLines(after);
    assert tools == before + rest;
    ToolLinesAppend(before, rest);
  }

  /** The strings.Builder loop of `GenerateWithTools`, one tool at a time. */
  method BuildToolsDescription(tools: seq<Tool>) returns (d: string)
    ensures d == ToolsDescription(tools)
  {
    d := ToolsHeader;
    var i := 0;
    while i < |tools|
      invariant 0 <= i <= |tools|
      invariant d == ToolsHeader + ToolLines(tools[..i])
    {
      ToolLinesAppend(tools[..i], [tools[i]]);
      assert tools[..i + 1] == tools[..i] + [tools[i]];
      assert ToolLines([tools[i]]) == ToolLine(tools[i]);
      d := d + ToolLine(tools[i]);
      i := i + 1;
    }
    assert tools[..i] == tools;
    d := d + ToolUsageInstruction;
  }

  /** Appends the tool description to the last message when that message has role "user";
      any other conversation is returned unchanged. Only the last position may differ. */
  function AddToolsToLastUserMessage(messages: seq<Message>, tools: seq<Tool>): (r: seq<Message>)
    ensures |r| == |messages|
    ensures forall i :: 0 <= i < |messages| - 1 ==> r[i] == messages[i]
    ensures |messages| > 0 && messages[|messages| - 1].role == "user" ==>
              r[|r| - 1] == Message("user", messages[|messages| - 1].content + ToolsDescription(tools))
    ensures !(|messages| > 0 && messages[|messages| - 1].role == "user") ==> r == messages
  {
    var last := |messages| - 1;
    if last >= 0 && messages[last].role == "user" then
      messages[last := messages[last].(content := messages[last].content + ToolsDescription(tools))]
    else
      messages
  }

  // ---------------------------------------------------------------------------
  // Request shaping and the chat endpoint

  /** The non-streaming chat request for the provider's active model. */
  function BuildRequest(p: OllamaProvider, messages: seq<Message>): (req: OllamaRequest)
    ensures req.model == p.model
    ensures !req.stream
    ensures |req.messages| == |messages|
    ensures forall i :: 0 <= i < |messages| ==> req.messages[i] == ToOllamaMessage(messages[i])
  {
    OllamaRequest(p.model, ToOllamaMessages(messages), false)
  }

  /** The chat endpoint: host, a colon, the port in decimal, then the chat path. */
  function ChatURL(host: string, port: int): (url: string)
    ensures |url| == |host| + 1 + |Itoa(port)| + |ChatPath|
    ensures url[..|host|] == host
    ensures url[|host|] == ':'
    ensures url[|host| + 1..|url| - |ChatPath|] == Itoa(port)
    ensures url[|url| - |ChatPath|..] == ChatPath
  {
    var url := host + ":" + Itoa(port) + ChatPath;
    assert url[..|host|] == host;
    assert url[|host| + 1..|url| - |ChatPath|] == Itoa(port);
    assert url[|url| - |ChatPath|..] == ChatPath;
    url
  }

  /** For one host, different ports give different endpoints. */
  lemma ChatURLPortInjective(host: string, port1: int, port2: int)
    ensures ChatURL(host, port1) == ChatURL(host, port2) <==> port1 == port2
  {
    if ChatURL(host, port1) == ChatURL(host, port2) {
      var u := ChatURL(host, port1);
      assert Itoa(port1) == u[|host| + 1..|u| - |ChatPath|] == Itoa(port2);
      ItoaInjective(port1, port2);
    }
  }

  // ---------------------------------------------------------------------------
  // Classifying the server's answer

  /** The decision the chat cycle takes once the HTTP layer has answered: transport
      failures first, then the status code (before anything is decoded), then the
      decoder, then the server-reported error field. */
  function ClassifyExchange(x: Exchange, decode: Decoder): (r: Result<OllamaResponse, ChatError>)
    ensures r.Success? <==>
              x.Received? && x.status == StatusOK && decode(x.body).Decoded? && decode(x.body).response.error == ""
    ensures r.Success? ==> r.value == decode(x.body).response && r.value.error == ""
    ensures x.RequestNotCreated? ==> r == Failure(RequestCreationError)
    ensures x.RequestNotSent? ==> r == Failure(RequestSendError)
    ensures x.BodyNotRead? ==> r == Failure(ResponseReadError)
    ensures x.Received? && x.status != StatusOK ==> r == Failure(UnexpectedStatus(x.status, x.body))
    ensures x.Received? && x.status == StatusOK && decode(x.body).DecodeFailed? ==> r == Failure(UnmarshalError)
    ensures x.Received? && x.status == StatusOK && decode(x.body).Decoded? && decode(x.body).response.error != "" ==>
              r == Failure(OllamaError(decode(x.body).response.error))
  {
    match x
    case RequestNotCreated => Failure(RequestCreationError)
    case RequestNotSent => Failure(RequestSendError)
    case BodyNotRead => Failure(ResponseReadError)
    case Received(status, body) =>
      if status != StatusOK then Failure(UnexpectedStatus(status, body))
      else
        match decode(body)
        case DecodeFailed => Failure(UnmarshalError)
        case Decoded(resp) => if resp.error != "" then Failure(OllamaError(resp.error)) else Success(resp)
  }

  /** A non-200 status is decided without looking at the body: any decoder gives the same answer. */
  lemma StatusDecidedBeforeDecoding(status: int, body: string, decode1: Decoder, decode2: Decoder)
    requires status != StatusOK
    ensures ClassifyExchange(Received(status, body), decode1) == ClassifyExchange(Received(status, body), decode2)
    ensures ClassifyExchange(Received(status, body), decode1).Failure?
  {
  }

  /** Sends the request to the chat endpoint and classifies the answer. */
  function ApiChat(p: OllamaProvider, req: OllamaRequest, send: Transport, decode: Decoder): (r: Result<OllamaResponse, ChatError>)
    ensures r.Success? ==> send(ChatURL(p.host, p.port), req).Received?
    ensures r.Success? ==> send(ChatURL(p.host, p.port), req).status == StatusOK
    ensures r.Success? ==> decode(send(ChatURL(p.host, p.port), req).body) == Decoded(r.value)
    ensures r.Success? ==> r.value.error == ""
    ensures var x := send(ChatURL(p.host, p.port), req);
            r.Success? <==> x.Received? && x.status == StatusOK && decode(x.body).Decoded? && decode(x.body).response.error == ""
    ensures var x := send(ChatURL(p.host, p.port), req);
            && (x.RequestNotCreated? ==> r == Failure(RequestCreationError))
            && (x.RequestNotSent? ==> r == Failure(RequestSendError))
            && (x.BodyNotRead? ==> r == Failure(ResponseReadError))
    ensures var x := send(ChatURL(p.host, p.port), req);
            x.Received? && x.status != StatusOK ==> r == Failure(UnexpectedStatus(x.status, x.body))
    ensures var x := send(ChatURL(p.host, p.port), req);
            x.Received? && x.status == StatusOK && decode(x.body).DecodeFailed? ==> r == Failure(UnmarshalError)
    ensures var x := send(ChatURL(p.host, p.port), req);
            x.Received? && x.status == StatusOK && decode(x.body).Decoded? && decode(x.body).response.error != "" ==>
              r == Failure(OllamaError(decode(x.body).response.error))
  {
    ClassifyExchange(send(ChatURL(p.host, p.port), req), decode)
  }

  // ---------------------------------------------------------------------------
  // Generation

  /** One chat round: the reply comes back with role "ai" and the server message's content;
      any error of the round is returned as is and no message is produced. */
  function GenerateResponse(p: OllamaProvider, messages: seq<Message>, send: Transport, decode: Decoder): (r: Result<Message, ChatError>)
    ensures r.Success? ==> r.value.role == "ai"
    ensures r.Success? <==> ApiChat(p, BuildRequest(p, messages), send, decode).Success?
    ensures r.Success? ==> r.value.content == ApiChat(p, BuildRequest(p, messages), send, decode).value.message.content
    ensures r.Failure? ==> r.error == ApiChat(p, BuildRequest(p, messages), send, decode).error
  {
    var response :- ApiChat(p, BuildRequest(p, messages), send, decode);
    Success(Message("ai", response.message.content))
  }

  /** The tool-augmented round: the tool description goes into the last user message,
      then one ordinary round follows. */
  function GenerateWithTools(p: OllamaProvider, messages: seq<Message>, tools: seq<Tool>, send: Transport, decode: Decoder): (r: Result<Message, ChatError>)
    ensures r.Success? ==> r.value.role == "ai"
    ensures var x := send(ChatURL(p.host, p.port), BuildRequest(p, AddToolsToLastUserMessage(messages, tools)));
            && (r.Success? <==> x.Received? && x.status == StatusOK && decode(x.body).Decoded? && decode(x.body).response.error == "")
            && (r.Success? ==> r.value == Message("ai", decode(x.body).response.message.content))
    ensures r.Failure? ==> r.error == ApiChat(p, BuildRequest(p, AddToolsToLastUserMessage(messages, tools)), send, decode).error
  {
    GenerateResponse(p, AddToolsToLastUserMessage(messages, tools), send, decode)
  }

  // ---------------------------------------------------------------------------
  // Properties of the whole round

  /** End to end: a round succeeds exactly when the endpoint answered 200 with a body that
      decodes and carries no error, and the reply's content is the decoded message's content. */
  lemma GenerateResponseOutcome(p: OllamaProvider, messages: seq<Message>, send: Transport, decode: Decoder)
    ensures var x := send(ChatURL(p.host, p.port), BuildRequest(p, messages));
            var r := GenerateResponse(p, messages, send, decode);
            && (r.Success? <==> x.Received? && x.status == StatusOK && decode(x.body).Decoded? && decode(x.body).response.error == "")
            && (r.Success? ==> r.value == Message("ai", decode(x.body).response.message.content))
            && (x.Received? && x.status != StatusOK ==> r == Failure(UnexpectedStatus(x.status, x.body)))
  {
  }

  /** The request the tool-augmented round sends: same model, no streaming, one wire slot per
      message, all slots but the last as in a plain round, and a last user message carrying
      the tool description. */
  lemma WithToolsRequest(p: OllamaProvider, messages: seq<Message>, tools: seq<Tool>)
    ensures var req := BuildRequest(p, AddToolsToLastUserMessage(messages, tools));
            && req.model == p.model && !req.stream
            && |req.messages| == |messages|
            && (forall i :: 0 <= i < |messages| - 1 ==> req.messages[i] == ToOllamaMessage(messages[i]))
            && (|messages| > 0 && messages[|messages| - 1].role == "user" ==>
                  req.messages[|messages| - 1] ==
                    Some(OllamaMessage(OllamaUserMessageRole, messages[|messages| - 1].content + ToolsDescription(tools))))
            && (!(|messages| > 0 && messages[|messages| - 1].role == "user") ==>
                  req == BuildRequest(p, messages))
  {
  }

  /** Without a trailing user message the tools are ignored entirely. */
  lemma WithToolsWithoutUserTail(p: OllamaProvider, messages: seq<Message>, tools: seq<Tool>, send: Transport, decode: Decoder)
    requires |messages| == 0 || messages[|messages| - 1].role != "user"
    ensures GenerateWithTools(p, messages, tools, send, decode) == GenerateResponse(p, messages, send, decode)
  {
  }

  /** A reply fed back into the conversation has no wire form: its role "ai" is not
      translated, so a later request carries a nil in its slot. */
  lemma ReplyIsNotForwarded(p: OllamaProvider, messages: seq<Message>, send: Transport, decode: Decoder)
    requires GenerateResponse(p, messages, send, decode).Success?
    ensures ToOllamaMessage(GenerateResponse(p, messages, send, decode).value) == None
    ensures BuildRequest(p, messages + [GenerateResponse(p, messages, send, decode).value]).messages[|messages|] == None
  {
  }
}
