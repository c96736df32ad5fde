# Ollama provider adapter — Dafny model

This project models the core of a Go adapter that lets a conversational agent
talk to a local Ollama server over its chat endpoint. It covers two pieces.

- **Message translation** (`message.go`), in module `Messages`. An agent
  message becomes a wire message only when its role is `user`. Every other
  role gives a nil pointer, modelled as `None`. A wire message comes back as
  an agent message only when its role is `"user"`. Every other wire role,
  including the adapter's unused `OllamaAIMessageRole` constant `"ai"`, gives
  the zero-value message with empty role and empty content. Converting a
  conversation keeps its length and order, and leaves a `None` in the slot of every non-user message.
- **The provider** (`provider.go`), in module `Provider`, with input and
  output taken out:
  - The tool description is a header, one line per tool in order, and a fixed
    usage instruction. It is appended to the last message only when that
    message has role `"user"`.
  - The request carries the active model, the converted messages and
    `stream = false`.
  - The chat endpoint is `host + ":" + decimal(port) + "/api/chat"`.
  - The answer is classified in a fixed order. Transport failures come first,
    then any status other than 200, then a body that does not decode, then a
    non-empty `error` field. Only what is left is a success.
  - A successful round returns a message with role `"ai"` and the content of
    the server's message.

The HTTP exchange is a parameter `send: (url, request) -> Exchange`. The JSON
decoder is a parameter `decode: body -> DecodeOutcome`. The three transport
failures (request not created, request not sent, body not read) are
constructors of `Exchange`. Go's `strconv.Itoa` is modelled in module
`Decimal`, together with a parser that serves as its inverse.

The code translates only the user role, maps every other role to nil or the
zero value, and embeds the tool list in the prompt text. It has no tool-call
handling, and neither does the model.

The agent library's `message.UserMessageRole` is not part of this model. It is
taken to be `"user"`, the literal that `provider.go:100` compares the same
field against.

## Model

| member | source | states |
|---|---|---|
| Messages.ToOllamaMessage | message.go:17-26 | a wire message exists exactly for role `user`; it then has role `"user"` and the same content |
| Messages.FromOllamaMessage | message.go:28-37 | wire role `"user"` gives the agent user role and the same content; any other wire role gives empty role and empty content |
| Messages.ToOllamaMessages | message.go:39-48 | output length equals input length; slot i is the conversion of message i, so order is kept and non-user messages leave a None |
| Messages.UserRoundTrip | message.go:17-37 | every user message converts to the wire and back to a message with the same role and content |
| Messages.WireRoundTrip | message.go:17-37 | a wire message survives agent-and-back exactly when its role is `"user"`; otherwise the return trip yields no wire message |
| Messages.AIMessageIsDropped | message.go:28-36 | a wire message whose role is the adapter's unused `OllamaAIMessageRole` constant `"ai"` becomes the zero-value message |
| Messages.ToOllamaMessagesAppend | message.go:39-48 | converting a concatenation of conversations is the concatenation of their conversions |
| Decimal.Itoa | provider.go:139 | the port's decimal rendering is non-empty, begins with `-` exactly for negative ports, is digits otherwise, and has no leading zero, so 0 renders as `0` |
| Decimal.ItoaRoundTrip | provider.go:139 | parsing the rendering of any integer gives that integer back |
| Decimal.ItoaInjective | provider.go:139 | two integers render to the same text exactly when they are equal |
| Provider.ToolsDescription | provider.go:91-96 | the description starts with the header, ends with the usage instruction, and holds exactly the tool lines between them, even for no tools |
| Provider.ToolLinesAppend | provider.go:93-95 | the tool lines of two lists in a row are the lines of their concatenation |
| Provider.ToolLineInOrder | provider.go:93-95 | tool i's line `- name: description` sits after the lines of the tools before it and before the lines of those after it |
| Provider.BuildToolsDescription | provider.go:91-96 | the string-builder loop produces exactly the tool description |
| Provider.AddToolsToLastUserMessage | provider.go:98-102 | length unchanged; all messages but the last unchanged; a last `"user"` message gets the description appended to its content; otherwise nothing changes |
| Provider.BuildRequest | provider.go:63-69 | the request names the provider's model, does not stream, and has one wire slot per message holding that message's conversion |
| Provider.ChatURL | provider.go:139 | the URL is the host, a colon, the port's decimal rendering, then `/api/chat` |
| Provider.ChatURLPortInjective | provider.go:139 | for one host, two ports give the same URL exactly when they are equal |
| Provider.ClassifyExchange | provider.go:139-169 | success exactly for a received 200 whose body decodes with an empty error field; each failure maps to its own error, status checked before decoding |
| Provider.StatusDecidedBeforeDecoding | provider.go:156-163 | for a non-200 status the outcome is a failure and does not depend on the decoder |
| Provider.ApiChat | provider.go:138-170 | a request not created, not sent or whose body is not read each gives its own error; otherwise it succeeds exactly when the chat URL answers 200 with a body that decodes with an empty error field, returning that decoded response; a non-200 status gives the status error with the body, a body that does not decode gives the unmarshal error, and a non-empty error field gives the server error |
| Provider.GenerateResponse | provider.go:62-85 | succeeds exactly when the chat call does; the reply has role `"ai"` and the response message's content; a failure passes the chat error through |
| Provider.GenerateResponseOutcome | provider.go:62-85 | end to end: success exactly for a 200 with a decodable body and no error field, the reply being `ai` plus the decoded content; a non-200 status yields the status error with the body |
| Provider.GenerateWithTools | provider.go:88-106 | succeeds exactly when the chat URL answers the tool-augmented request with a 200, a decodable body and no error field; the reply is role `"ai"` with the decoded message's content; a failure returns the chat call's error unchanged |
| Provider.WithToolsRequest | provider.go:88-106 | the tool-augmented request keeps model, no streaming and length; all slots but the last match a plain round; a last user message carries the tool description; otherwise it is the plain request |
| Provider.WithToolsWithoutUserTail | provider.go:99-105 | with no trailing user message, the tool-augmented round is the plain round |
| Provider.ReplyIsNotForwarded | provider.go:81-84 | a reply appended to the conversation has no wire form, so the next request has a nil in its slot |

## Left out

- HTTP transport (`http.NewRequestWithContext`, `client.Do`, `io.ReadAll`, closing the body): input and output, modelled only by the `Exchange` each produces; the request header and the caller's context are not modelled.
- JSON marshalling of the request (provider.go:71-74): serialising a struct of strings, a bool and message pointers cannot fail in Go, so the request is handed to the transport as a structured value and the marshalling error branch is not modelled.
- JSON unmarshalling of the response: a foreign library, modelled as the opaque `decode` parameter.
- Response bodies are modelled as text rather than bytes; the Go code only turns them into a string for the status error.
- Error message wording (`fmt.Errorf` texts and wrapped causes): replaced by one `ChatError` constructor per failing branch.
- `GetCapabilities`, `GenerateStream`, `GenerateStreamWithTools`, `ValidatePrompt`, `EstimateTokens`, `GetModelList`: stubs that print and return nil or zero values.
- The agent library's `message.UserMessageRole` is not part of this model; it is taken to be `"user"`. The last-slot clause of `Provider.WithToolsRequest` and `Provider.ReplyIsNotForwarded` rest on this, because `provider.go:100` and `provider.go:82` use literals while `message.go:18` uses the constant.
- `NewOllamaProvider` and the logger: the constructor only stores fields; logging has no behaviour.
- Provider.AddToolsToLastUserMessage: `GenerateWithTools` updates the caller's slice in place, so the caller sees the appended description; the model returns a new sequence instead.
- Decimal.Itoa: integers are unbounded, whereas Go's port is a fixed-width (32- or 64-bit) `int`.
- Fields of the agent's message and tool types other than role, content, name and description: the adapter never reads them.
- `client/message.go` and `models/models.go`: a role enum, a message struct and model identifiers that no function of the core uses.
- The example programs: command-line wiring against an external agent library.
