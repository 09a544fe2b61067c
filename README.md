# Career-assistant tool-calling loop, modelled in Dafny

This project models the conversation core of the AI-Avatar career chatbot (`AI-Avatar/app.py`):
an assistant that plays one person, answers visitors through a hosted chat-completion service,
and lets the model call two tools that send push notifications — one records a visitor's contact
details, the other records a question the assistant could not answer.

Modules, one per component of the program:

- `Wrappers` — `Option` and `Result`.
- `Text` — substring occurrence (`OccursAt`, `Contains`) and the lemmas that place a piece inside a concatenation.
- `Protocol` — the conversation entries (`System`, `User`, `Assistant` with its tool calls, `Tool` answering a call id),
  tool-call requests with their decoded arguments, the service's `Completion`, the ways a turn fails, and
  `WellPaired`: every assistant entry is followed right away by one tool entry per call, in call order, and by no further tool entry.
- `Notifications` — `PushSink`, the push endpoint seen as the list of texts it was sent (`push`).
- `Tools` — `record_user_details` and `record_unknown_question` as functions that return the notice they push and
  their output; the explicit name-to-handler registry; Python's keyword-argument binding (`Bind`); the published tool
  schema; one call (`Execute`); and the batch dispatcher's specification (`HandleAll`) with its lemmas.
- `Persona` — the system prompt and the resume assembled from the document's pages.
- `Avatar` — the class `Me` (persona fields, `HandleToolCall`, `Chat`), the turn's specification `Converse`, the
  chat widget's history update `Respond`, and the lemmas about a turn.

The chat-completion service is a parameter: a function from the conversation to the completion it returns, or
`None` when the request raises. `Chat` is proved equal to `Converse`, and the properties are proved about `Converse`.
The source's loop has no bound, so `Chat` and `Converse` take `fuel`, the largest number of requests they may make.
`MoreFuelSameTurn` shows that any turn that ends within the bound ends the same way with more fuel.

## Model

| member | source | states |
|---|---|---|
| `Notifications.PushSink.Push` | AI-Avatar/app.py:16-24 | sending a notification appends its text to what the endpoint has received, and nothing else changes |
| `Tools.RecordUserDetails` | AI-Avatar/app.py:27-29 | exactly one notice is pushed; it starts with "Recording " and contains the name, the email and the notes; called with only an email, the name is "Name not provided" and the notes are "not provided"; the output is `{"recorded": "ok"}` |
| `Tools.RecordUnknownQuestion` | AI-Avatar/app.py:31-33 | exactly one notice is pushed: "Recording " followed by the question verbatim; the output is `{"recorded": "ok"}` |
| `Tools.Serialize` | AI-Avatar/app.py:103 | the serialised reply is the empty object `{}` exactly when no handler ran |
| `Tools.Bind` | AI-Avatar/app.py:102 | a handler that accepts its keyword arguments is the one that ran: the user-details handler got an `email` and ran `record_user_details` (lines 27-29) on it, with the given `name` and `notes` or their defaults; the unknown-question handler got a `question` and ran `record_unknown_question` (lines 31-33) on it; either way one notice is pushed and `recorded` is reported |
| `Tools.BindingFollowsSchema` | AI-Avatar/app.py:35-77 | for each published tool, its handler accepts the arguments exactly when the tool's JSON schema admits them: all required properties present and no property outside the schema |
| `Tools.DefinitionsNameRegistry` | AI-Avatar/app.py:76-77 | the tools published to the service are exactly the tools the dispatcher can run |
| `Tools.Execute` | AI-Avatar/app.py:98-102 | undecodable arguments raise, whatever the name; a name with no handler gives `{}` with no push and no error; otherwise a notice is pushed exactly when the name is registered |
| `Tools.ExecuteFollowsSchema` | AI-Avatar/app.py:98-102 | a decodable call naming a published tool goes through exactly when its arguments are a JSON object that the tool's schema (lines 35-77) admits |
| `Tools.ExecuteRunsHandler` | AI-Avatar/app.py:101-102 | a call to a registered tool that goes through had object arguments and ran that tool's function on them: `record_user_details(email, name, notes)` with the defaults for absent `name`/`notes`, or `record_unknown_question(question)` |
| `Tools.RepliesCorrelate` | AI-Avatar/app.py:95-104 | a batch that goes through has one reply per request, in request order; reply i has role "tool", call i's id and call i's serialised output; one notice was pushed per call naming a registered tool |
| `Tools.PushesInCallOrder` | AI-Avatar/app.py:97-102 | in a batch that goes through, the notices pushed are the registered calls' own notices, in call order: the notice of registered call i comes right after one notice per registered call before it |
| `Tools.BatchSucceedsIff` | AI-Avatar/app.py:97-104 | a batch goes through exactly when none of its calls raises |
| `Tools.AbortAtFirstFailure` | AI-Avatar/app.py:97-104 | a batch that raises raises the first failing call's error, and the notices of the calls before it have been pushed |
| `Tools.AbortIsFinal` | AI-Avatar/app.py:97-104 | once a call has raised, the later calls in the batch are not run |
| `Tools.UnknownToolsAnswerEmpty` | AI-Avatar/app.py:101-103 | a batch naming only unregistered tools answers every call with `{}` under its id, pushes nothing and does not raise |
| `Persona.SystemPromptLayout` | AI-Avatar/app.py:106-117 | the prompt is the instruction block, then "## Experence:" with the experience verbatim, then "## Resume Profile:" with the resume verbatim, then a blank line and the in-character sentence, at stated offsets |
| `Persona.InstructionsNameTheTools` | AI-Avatar/app.py:107-113 | the instruction block mentions every registered tool by name |
| `Persona.GuidanceNamesTheTools` | AI-Avatar/app.py:111-113 | the behaviour rules name the unknown-question tool and the user-details tool |
| `Persona.InstructionsNameThePersona` | AI-Avatar/app.py:107 | the instruction block mentions the persona's name |
| `Persona.AssembleResume` | AI-Avatar/app.py:86-90 | the resume is the text of the pages, joined in page order, with pages that gave no text skipped |
| `Persona.JoinPagesAppend` | AI-Avatar/app.py:86-90 | joining pages distributes over splitting the document |
| `Persona.PageInResume` | AI-Avatar/app.py:86-90 | each page's text appears verbatim in the resume, right after the text of the pages before it |
| `Avatar.Opening` | AI-Avatar/app.py:120 | a turn starts from the system prompt, then the history unchanged, then the user message |
| `Avatar.OpeningKeepsPairing` | AI-Avatar/app.py:120 | the opening conversation is well paired when the history is |
| `Avatar.FirstAnswerEndsTurn` | AI-Avatar/app.py:121-132 | if the first completion's finish reason is not "tool_calls", the turn returns its content, dispatches nothing and pushes nothing |
| `Avatar.AnswerComesFromFinalCompletion` | AI-Avatar/app.py:121-132 | an answer is the content of a completion whose finish reason is not "tool_calls", given for the turn's final conversation |
| `Avatar.ConversationOnlyGrows` | AI-Avatar/app.py:124-129 | the conversation is only appended to: the final conversation extends the opening one |
| `Avatar.RoundKeepsPairing` | AI-Avatar/app.py:127-129 | appending the assistant entry and then replies that answer its calls one to one keeps every tool request answered |
| `Avatar.TurnKeepsPairing` | AI-Avatar/app.py:122-131 | a well-paired conversation stays well paired through every tool round of a turn |
| `Avatar.MoreFuelSameTurn` | AI-Avatar/app.py:121-131 | a turn that ends within the request bound ends the same way under any larger bound |
| `Avatar.Me.constructor` | AI-Avatar/app.py:82-92 | the persona's name is fixed, its resume is the joined pages, and its experience is the experience file's text |
| `Avatar.Me.HandleToolCall` | AI-Avatar/app.py:95-104 | the loop returns what `HandleAll` specifies and pushes exactly the batch's notices, in order |
| `Avatar.Me.Chat` | AI-Avatar/app.py:119-132 | the loop returns the outcome `Converse` gives from the opening conversation, and pushes exactly the turn's notices |
| `Avatar.Respond` | AI-Avatar/app.py:346-350 | after a turn that answers, the history gains the user message and then the answer; after a turn that raises, the error propagates and no history is returned |
| `Avatar.CommitKeepsPairing` | AI-Avatar/app.py:348-349 | recording a turn's user message and answer keeps the history well paired |
| `Avatar.AppendPlainKeepsPairing` | AI-Avatar/app.py:348-349 | appending an entry that neither requests nor answers a tool keeps the conversation well paired |
| `Avatar.EmailScenario` | AI-Avatar/app.py:119-132 | a first message giving an email, with a service that requests `record_user_details` once and then answers, ends with that answer after exactly one push, which contains the email |

## Left out

- Pushover delivery (AI-Avatar/app.py:16-24): the HTTP POST, the credentials read from the environment and the ignored response are I/O. `PushSink` keeps only the texts sent.
- Notifications.PushSink.Push: never fails. In the source, `requests.post` (AI-Avatar/app.py:17-24) raises when the request cannot be made at all (connection refused, DNS or TLS failure, timeout). Nothing catches that exception, so the tool call, the rest of its batch and the whole turn abort, and the chat history is not updated. Only a non-success HTTP status is ignored, and that is what the model keeps. As a consequence, `Execute`, `HandleAll`, `Converse` and `Me.Chat` never fail because of a push.
- The AzureOpenAI client (AI-Avatar/app.py:9-11, 83, 123): the service is a function parameter. The model id, API version and `tools` list it is sent are the same on every request, so they are not passed to it. An empty `choices` list or any other failure of the call is `TransportFailure`.
- Avatar.Me.Chat: the source's loop has no bound; the model stops with `OutOfFuel` after `fuel` requests. The model states nothing about a turn that never ends.
- `json.loads` (AI-Avatar/app.py:99): arguments come already decoded, as `Object` (a JSON object), `NotAnObject` or `Malformed`. The values of an object are strings. Python's formatting of non-string JSON values inside the notices is not modelled.
- `json.dumps` (AI-Avatar/app.py:103): only the two results that can occur, `{"recorded": "ok"}` and `{}`, are rendered.
- `globals().get(tool_name)` (AI-Avatar/app.py:101): this is narrowed to an explicit two-entry registry. In the source, any other module-level name with a truthy value is looked up too. A callable one (`push`, `load_dotenv`, `PdfReader`, `AzureOpenAI`, `Me`, `create_enhanced_interface`) is called with the arguments. A non-callable one (the modules `json`, `os`, `requests`, `random` and `gr`, the lists and dicts `tools`, `record_user_details_json` and `record_unknown_question_json`, the string `__name__`, a set API key or endpoint) makes `tool(**arguments)` raise a TypeError that aborts the turn. The model answers `{}` for all of these names, as it does for names that are not defined.
- Tool-call arguments that are not an object raise a TypeError at `tool(**arguments)` only when a handler is found. The model keeps this.
- The `print` of each tool name (AI-Avatar/app.py:100) is logging.
- The message `content` and `tool_calls` the service returns may be null. The model uses a string and a possibly empty list. In the source, a "tool_calls" completion with no call list would raise.
- PDF text extraction and the experience file read (AI-Avatar/app.py:85-92) are I/O. The constructor takes each page's extracted text (`None` when there is none) and the file's contents.
- The Gradio interface (AI-Avatar/app.py:135-345, 352-359) is presentation: layout, CSS, suggested questions and `random.choice`. `Respond` returns the new history. It does not model the cleared text box or the in-place update of Gradio's list.
- `load_dotenv` and process start-up (AI-Avatar/app.py:14, 357-359).
- Argument errors are kept, not left out: `record_user_details` called without `email`, or with an argument outside its signature, raises a TypeError that aborts the turn, and so does `record_unknown_question` without exactly a `question`. The model keeps this (`Bind`, `BindingFollowsSchema`, `ExecuteFollowsSchema`).
