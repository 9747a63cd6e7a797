# MannSahay / MannMitra relay — a Dafny model

The relay sits between a chat front end and a local Ollama server. It exposes two chat
personas. For each request it does four things:

- It builds the backend's message list: the persona prompt as a `system` message, then the
  caller's transcript in order, then the new `user` message.
- It posts that list once to the OpenAI-compatible chat-completion path with the fixed model
  `llama3:8b` and `stream: false`.
- It maps what comes back to a `ChatResponse` of `reply`, `new_history` and `error`.
- A separate liveness endpoint maps the backend's reachability to `online` / `offline`.

Files:

- `relay.dfy` (module `Relay`): the message and response shapes, the outbound construction,
  the reading of `choices[0].message.content`, the outcome mapping, both persona endpoints
  and the liveness probe.
- `json.dfy` (module `Json`): a decoded JSON value.
- `decimal.dfy` (module `Decimal`): Python's `str(n)` for the status code, and reading a
  numeral back.
- `wrappers.dfy` (module `Wrappers`): `Option` and a failure-compatible `Result`.

The HTTP client is an input. A chat call is a function `backend: PostCall -> Outcome`. The
relay's methods return the call they hand to it (`sent`) along with the response, so their
contracts say both what was sent and what came back. An `Outcome` is one of: no connection,
a rejected status (code and body), any other exception (a body that is not JSON among them),
or a decoded JSON payload.

What the code does with the backend's answer, stated as facts about the code:

- It reads the reply only from `choices[0].message.content` of the OpenAI-compatible path
  `/v1/chat/completions`.
- It has no fallback to a nested `message.content`, to a flat `response` field, or to a text
  rendering of the whole payload. Any payload without a string at `choices[0].message.content`
  becomes the "unexpected error" response (`Relay.NativeShapeIsUnexpected` shows this for the
  nested `{"message": {"content": c}}` shape).
- Its client timeout is 30 seconds, which the model does not represent.

## Model

| member | source | states |
|---|---|---|
| `Relay.BuildMessages` | main.py:144-152 | The outbound list is the system prompt, then the transcript verbatim and in order, then the new user message. Its length is the transcript's length + 2. |
| `Relay.GetOllamaResponse` | main.py:134-199 | The call handed to the backend goes to `/v1/chat/completions` with model `llama3:8b`, `stream` false and the constructed message list. The response is the outcome mapping of the backend's answer to that call. |
| `Relay.ExtractReply` | main.py:169-173 | Reading `choices[0].message.content` succeeds with `c` if and only if the payload is an object whose `choices` is a non-empty list whose first element's `message` object has the string `c` under `content`. |
| `Relay.Respond` | main.py:161-199 | A transcript is always returned, and exactly one of reply and error is set. A reply happens only for a payload carrying a string reply; it grows the transcript by the user turn and then the assistant turn. Any error returns the transcript unchanged. |
| `Relay.SuccessfulExchange` | main.py:170-180 | On a payload with reply `c`: reply `c`, no error, and the new transcript is the old one followed by `user(message)` and `assistant(c)`. Its length is the old length + 2 and its prefix is the old transcript. |
| `Relay.ConnectFailure` | main.py:182-187 | No connection: no reply, the transcript unchanged, and the fixed "Offline AI server is not running..." text. |
| `Relay.StatusFailure` | main.py:188-193 | Rejected status: no reply, the transcript unchanged, and an error starting with "Ollama server error: " from which both the status code and the body text are read back exactly. |
| `Relay.StatusErrorReadBack` | main.py:192 | The text "Ollama server error: {code} - {body}" determines both the code and the body it was built from. |
| `Relay.UnexpectedFailure` | main.py:194-199 | Any other exception, and any payload without a string at `choices[0].message.content`: no reply, the transcript unchanged, and an error starting with "An unexpected error occurred: ". |
| `Relay.MissingChoices` | main.py:170 | An object without `choices` raises `KeyError('choices')` and gives the generic error with detail `'choices'`. |
| `Relay.EmptyChoices` | main.py:170 | An empty `choices` list raises `IndexError` and gives the generic error with detail "list index out of range". |
| `Relay.NonStringContent` | main.py:170-173 | A `content` that is not a string fails validation of the assistant `Message`: no reply, the transcript unchanged, and an error starting with "An unexpected error occurred: ". |
| `Relay.NativeShapeIsUnexpected` | main.py:164-170 | The nested `{"message": {"content": c}}` shape is not read as a reply; it gives the generic error with detail `'choices'` and the transcript unchanged. |
| `Relay.ErrorNamesItsKind` | main.py:182-199 | The three error texts are distinct. The kind of failure (unreachable, backend status, unexpected) can be read back from the error text alone. |
| `Relay.ChatMannSahay` | main.py:203-210 | `/chat/mannsahay` sends `MANNSAHAY_PROMPT` as the first, `system` message, followed by the transcript and the new user message. Its response is the outcome mapping of the backend's answer to that call. |
| `Relay.ChatMannMitra` | main.py:212-219 | `/chat/mannmitra` does the same with `MANNMITRA_PROMPT`. |
| `Relay.PersonaPromptsDistinct` | main.py:26-72 | The two personas' prompts are different strings. |
| `Relay.CheckOllamaStatus` | main.py:221-228 | `online` exactly when the probe got any response, whatever its status code. `offline` exactly on a connection error. No answer, because the exception propagates, exactly on any other exception. |
| `Decimal.NatToString` | main.py:192 | The status code is printed as Python's `str(n)`: non-empty, digits only, no leading zero. |
| `Decimal.ParseNatToString` | main.py:192 | Reading a printed status code back gives the code, so distinct codes print differently. |

## Left out

- FastAPI routing, pydantic request validation, uvicorn startup and the `print` calls are framework plumbing and are not modelled.
- The `httpx.AsyncClient` is not modelled: its base URL, its 30-second timeout, async/await and the network itself. The chat call is the `backend` function parameter and the probe's result is the `ProbeOutcome` input.
- Relay.GetOllamaResponse: the number of calls made to the backend is not modelled. The backend is a pure function, so the contract pins the call's content and ties the response to that call's outcome, but it cannot tell one POST from several; the source posts once and never retries.
- Which responses `raise_for_status` rejects, and how httpx classifies exceptions, belong to the library. A rejected status is one `Outcome` variant, handled after "no connection" and before "anything else".
- Decoding the response body (`response.json()`) is not modelled. The model starts from an already-decoded `Json` value, and a body that is not JSON is an `OtherFail`.
- The prompt text is configuration. The two prompts are placeholder constants whose only modelled property is that they differ.
- Relay.UnexpectedFailure: the text of `str(e)` after the generic prefix is not promised. `ShapeErrorDetail` gives CPython's wording for `KeyError` and `IndexError`, and only the first line of pydantic's message for a validation error (`Relay.NonStringContent` promises only the prefix).
- A numeric `content` is rejected, as pydantic 2 does; pydantic 1 would turn it into a string instead.
- JSON numbers are a single `int`-valued variant because the relay never reads a number.
- Relay.CheckOllamaStatus: the probe's exceptions other than a connection error are not described beyond "they propagate".
