# Essay tutor: session store and turn bookkeeping

A model of the in-memory core of the essay-writing tutor (`agent/essay_tutor.py`).
The tutor keeps a dictionary from session id to session objects. Each session
has a topic, a workflow stage and an append-only message log. One tutoring turn
(`get_response`) does four things:

- it creates the session if the id is unknown;
- it appends the user's message;
- it builds a request made of the fixed system prompt and the last ten stored
  messages, and dispatches that request once to a completion service;
- it appends exactly one assistant message. That message holds the completion
  text, or `"Sorry, I encountered an error: "` followed by the error's
  description.

Files:

- `wrappers.dfy`: `Option` and `Result`.
- `chat.dfy` (module `Chat`): the turn on values. It holds messages and roles,
  the ten-message window, the request, the reply text, one `Turn`, and a
  `Conversation` of several turns, with the lemmas about them.
- `essay_tutor.dfy` (module `EssayTutorAgent`): the classes `EssaySession` and
  `EssayTutor`. Their methods update the session dictionary and the sessions'
  logs in place. `GetResponse` is specified through `Chat.Turn`; the other
  methods state their new state directly. `ConversationFlow` runs several
  turns on one tutor and ties the resulting log to `Chat.Conversation`.

The completion service is a parameter of `GetResponse`: a function from the
request to an outcome, `Completed(text)` or `Failed(detail)`. `detail` stands
for `str(e)` of any `Exception` the client raised. The system prompt is a
constant field of the tutor. Its text is not part of the model.

`EssaySession` is a class, not a value. `create_session` and `get_session_info`
return references to the stored object, and a caller may set `topic` on it, as
the test of session management does. `Valid()` requires each session to be
stored under its own `sessionId`. Two ids therefore never share a session
object, which is why a turn on one id cannot change another id's log.

## Model

| member | source | states |
|---|---|---|
| Chat.WindowIsSuffix | agent/essay_tutor.py:87 | `messages[-10:]` has length `min(10, n)` and is a suffix of the log: the dropped prefix and the window together are the whole log |
| Chat.RequestShape | agent/essay_tutor.py:84-91 | the request is the system prompt, then the last `min(10, n)` stored messages in their original order with role and content unchanged; its last entry is the last stored message |
| Chat.PrepareRequest | agent/essay_tutor.py:84-91 | the loop that builds the request one entry at a time produces exactly `Request(prompt, history)` |
| Chat.ReplyText | agent/essay_tutor.py:101-119 | on success the reply is the completion text; on failure it is the fixed error prefix followed by the error detail |
| Chat.Window | agent/essay_tutor.py:87 | `messages[-10:]` holds `min(10, n)` messages |
| Chat.Request | agent/essay_tutor.py:84-91 | the request holds one entry more than the window, and that first entry is the system prompt under the system role |
| Chat.Turn | agent/essay_tutor.py:77-118 | one `get_response` on a log adds two messages: the user's text at the old end, then an assistant message carrying the returned reply |
| Chat.TurnAppendsTwo | agent/essay_tutor.py:77-118 | a turn appends exactly two messages, the user's and then the assistant's reply; the stored log is never shortened, every earlier message stays in place |
| Chat.TurnRequestIsWindow | agent/essay_tutor.py:77-91 | a turn's request is the prompt followed by the last `min(10, n)` of the `n` stored messages, the user's new message included; it ends with that message |
| Chat.TurnSuccess | agent/essay_tutor.py:101-110 | on success the returned text equals the completion text and the content of the appended assistant message |
| Chat.TurnFailure | agent/essay_tutor.py:112-119 | on failure the returned text is the error prefix followed by the error detail. It equals the appended assistant message's content, and the log still grows by two |
| Chat.Conversation | agent/essay_tutor.py:69-119 | the log after a sequence of turns, each turn with its own service outcome, has grown by two messages per turn |
| Chat.ConversationExtend | agent/essay_tutor.py:69-119 | one more call at the end of a conversation is one more `Turn` on its log |
| Chat.ConversationShape | agent/essay_tutor.py:69-119 | after N turns, whatever each turn's outcome, a log has grown by 2N messages; the old log is kept, and each turn adds the user's text and then an assistant message, in order |
| Chat.FreshConversationAlternates | agent/essay_tutor.py:69-119 | N turns on an empty session, with any outcome on each turn, leave 2N messages alternating user, assistant, starting with the user |
| Chat.EchoFirstTurn | agent/essay_tutor.py:69-119 | against a service that echoes "OK:" and the last request entry, a first turn "hi" answers "OK:hi" and leaves `[(user,"hi"), (assistant,"OK:hi")]` |
| EssayTutorAgent.EssaySession.constructor | agent/essay_tutor.py:19-29 | a session built from its id has no topic, stage `topic_selection` and an empty message list |
| EssayTutorAgent.ResolveApiKey | agent/essay_tutor.py:34-38 | the key is the non-empty argument, else the non-empty environment value; if there is neither, the result is the configuration error |
| EssayTutorAgent.EssayTutor.constructor | agent/essay_tutor.py:34-41 | a tutor with a non-empty key starts with no sessions |
| EssayTutorAgent.EssayTutor.New | agent/essay_tutor.py:34-41 | construction succeeds exactly when a key resolves, and fails with the missing-key error otherwise |
| EssayTutorAgent.EssayTutor.CreateSession | agent/essay_tutor.py:63-67 | installs a new empty session under the id, discarding any previous one, and returns it; other ids keep their sessions |
| EssayTutorAgent.EssayTutor.GetResponse | agent/essay_tutor.py:69-119 | an unknown id first gets a new session, and the same object is kept for a known id. The log becomes `Turn(old history, ...)`: two appends whose request is the windowed log and whose reply is the completion or error text. No other session or log changes |
| EssayTutorAgent.EssayTutor.GetSessionHistory | agent/essay_tutor.py:121-125 | empty for an unknown id, otherwise the stored message sequence; it reads state and changes nothing |
| EssayTutorAgent.EssayTutor.GetSessionInfo | agent/essay_tutor.py:127-129 | present exactly when the id is stored, and then it is the stored session object, whose id is the key |
| EssayTutorAgent.EssayTutor.ResetSession | agent/essay_tutor.py:131-136 | a known id gets a new empty session (no topic, initial stage, no messages) and the answer true; an unknown id answers false and leaves the map unchanged |
| EssayTutorAgent.SessionManagementScenario | tests/test_essay_tutor.py:220-256 | with two sessions (the test creates three): `get_session_info` sees a topic set through the reference that `create_session` returns, and a new session's history is empty. Resetting a known session answers true, leaves an empty history and no topic. A reset of an unknown id, which the test does not try, answers false and creates nothing |
| EssayTutorAgent.EchoScenario | agent/essay_tutor.py:69-119 | on a new tutor, a first turn against a service that echoes "OK:" and the last entry returns "OK:hi". A first turn against a service failing with "API Error" returns exactly the error prefix followed by "API Error". This is the outcome the failure test at tests/test_essay_tutor.py:310-322 intends; that test only checks that the reply contains the prefix. Each turn leaves exactly one user/assistant pair |
| EssayTutorAgent.ConversationFlow | tests/test_essay_tutor.py:150-180 | N `GetResponse` calls on one id of a new tutor, the i-th answered by the i-th service, leave the log equal to `Conversation([], texts, prompt, services)`. That log has 2N messages alternating user, assistant, and each returned reply is the assistant message stored right after its user message |

## Left out

- The OpenAI client, its construction and the model parameters (`gpt-3.5-turbo`, 500 tokens, temperature 0.7): this is a network call. It is a function parameter from request to outcome, called once per turn.
- `async`/`await`: nothing in the core runs concurrently, so the methods are sequential.
- EssayTutorAgent.EssayTutor.GetResponse: does not model a turn ended by a `BaseException` that `except Exception` does not catch, such as `asyncio.CancelledError` at the awaited completion call or `KeyboardInterrupt`. In the code such a turn propagates the exception after appending only the user message, so the next turn stores two user messages in a row. The model also does not capture concurrent calls on one id interleaving at that same await.
- Message timestamps (`datetime.now()`): they come from the wall clock and nothing relies on them. They are not stored.
- The format `str(e)` gives an exception: the error detail is an opaque string after the fixed prefix.
- `load_dotenv` and reading `OPENAI_API_KEY`: the environment's value is a parameter of `EssayTutor.New`.
- The literal system-prompt text: the prompt is a constant field set at construction.
- The other dataclass fields `EssaySession` accepts (`topic`, `messages`, `current_stage`): the tutor only ever builds a session from its id.
- The console loop `main`, the Streamlit page `Home.py` and the test script's result files: these are user interface and I/O.
- Stored roles are a datatype, not free strings. The code only ever stores `"user"` and `"assistant"`.
- The workflow stage is a five-value datatype. In the code `current_stage` is a free string that nothing in the core changes.
- Messages are immutable values. In the code `Message` is a mutable dataclass, and `get_session_history` returns a shallow copy that shares those objects with the stored log. Aliasing of individual messages is therefore not modelled.
- A session's id is a constant. In the code `session_id` is an ordinary, mutable dataclass field, but nothing in the core reads or changes it after construction. `Valid()` relies on it staying equal to the dictionary key.
- There is no store-level append operation. `get_response` creates a missing session itself before it appends.
- `get_response` accepts any user text, the empty text included. Only its callers (the console loop and the Streamlit page) skip blank input.
