/** The conversation logic of one tutoring turn, on values: the stored message
    log, the bounded window of history that goes into the outbound completion
    request, and the text the tutor answers with on success and on failure. */
module Chat {

  /** Roles of chat messages. Stored messages are `User` or `Assistant`;
      `System` only appears as the first entry of an outbound request. */
  datatype Role = System | User | Assistant

  /** A message as stored in a session and as sent to the completion service:
      a role and its text. (The stored timestamp is not modelled.) */
  datatype Message = Message(role: Role, content: string)

  /** What the completion service did with one request: it produced a
      completion text, or it raised an error whose description is `detail`. */
  datatype Outcome = Completed(text: string) | Failed(detail: string)

  /** The completion service, as seen by the tutor: a request in, an outcome out. */
  type CompletionService = seq<Message> -> Outcome

  /** Number of most recent stored messages that go into a request. */
  const WindowSize: nat := 10

  /** The fixed prefix of the answer synthesised when the service fails. */
  const ErrorPrefix: string := "Sorry, I encountered an error: "

  function Min(a: int, b: int): int
  {
    if a <= b then a else b
  }

  /** `messages[-10:]`: the last `WindowSize` messages, or all of them when
      there are fewer. */
  function Window(history: seq<Message>): (recent: seq<Message>)
    ensures |recent| == Min(WindowSize, |history|)
  {
    if |history| <= WindowSize then history else history[|history| - WindowSize..]
  }

  /** The window is a suffix of the log, of length `min(10, n)`. */
  lemma WindowIsSuffix(history: seq<Message>)
    ensures |Window(history)| == Min(WindowSize, |history|)
    ensures history[..|history| - |Window(history)|] + Window(history) == history
  {
  }

  /** The outbound request: the system prompt, then the window of the history. */
  function Request(prompt: string, history: seq<Message>): (request: seq<Message>)
    ensures |request| == 1 + Min(WindowSize, |history|)
    ensures request[0] == Message(System, prompt)
  {
    [Message(System, prompt)] + Window(history)
  }

  /** The request is the system prompt followed by the last `min(10, n)` stored
      messages in their original order, each with its role and content
      unchanged; it ends with the last stored message. */
  lemma RequestShape(prompt: string, history: seq<Message>)
    ensures var request := Request(prompt, history);
      && |request| == 1 + Min(WindowSize, |history|)
      && request[0] == Message(System, prompt)
      && request[1..] == history[|history| + 1 - |request|..]
      && (history != [] ==> request[|request| - 1] == history[|history| - 1])
  {
  }

  /** Builds the request step by step, one history entry at a time, as the
      tutor does before dispatching it. */
  method PrepareRequest(prompt: string, history: seq<Message>) returns (request: seq<Message>)
    ensures request == Request(prompt, history)
  {
    request := [Message(System, prompt)];
    var recent := Window(history);
    for i := 0 to |recent|
      invariant request == [Message(System, prompt)] + recent[..i]
    {
      request := request + [recent[i]];
    }
    assert recent[..|recent|] == recent;
  }

  /** The text the tutor answers with: the completion text on success, and on
      failure the fixed prefix followed by the error detail. */
  function ReplyText(outcome: Outcome): (reply: string)
    ensures outcome.Completed? ==> reply == outcome.text
    ensures outcome.Failed? ==> |ErrorPrefix| <= |reply| && reply[..|ErrorPrefix|] == ErrorPrefix
    ensures outcome.Failed? ==> reply[|ErrorPrefix|..] == outcome.detail
  {
    match outcome
    case Completed(text) => text
    case Failed(detail) => ErrorPrefix + detail
  }

  /** What one turn does to a session's message log. */
  datatype TurnResult = TurnResult(history: seq<Message>, request: seq<Message>, reply: string)

  /** One turn on the message log `history`: the user's message is appended,
      the request is built from the extended log and dispatched once, and the
      reply is appended as an assistant message. */
  function Turn(history: seq<Message>, text: string, prompt: string, service: CompletionService): (turn: TurnResult)
    ensures |turn.history| == |history| + 2
    ensures turn.history[|history|] == Message(User, text)
    ensures turn.history[|history| + 1] == Message(Assistant, turn.reply)
  {
    var withUser := history + [Message(User, text)];
    var request := Request(prompt, withUser);
    var reply := ReplyText(service(request));
    TurnResult(withUser + [Message(Assistant, reply)], request, reply)
  }

  /** A turn appends exactly two messages, the user's and then the
      assistant's, and keeps every earlier one. */
  lemma TurnAppendsTwo(history: seq<Message>, text: string, prompt: string, service: CompletionService)
    ensures var t := Turn(history, text, prompt, service);
      && |t.history| == |history| + 2
      && t.history[..|history|] == history
      && t.history[|history|] == Message(User, text)
      && t.history[|history| + 1] == Message(Assistant, t.reply)
  {
  }

  /** The request of a turn is the system prompt followed by the last
      `min(10, n)` of the `n` stored messages; it ends with the user's
      message just appended. */
  lemma TurnRequestIsWindow(history: seq<Message>, text: string, prompt: string, service: CompletionService)
    ensures var t := Turn(history, text, prompt, service);
      var n := |history| + 1;
      && |t.request| == 1 + Min(WindowSize, n)
      && t.request[0] == Message(System, prompt)
      && t.request[1..] == t.history[n - Min(WindowSize, n)..n]
      && t.request[|t.request| - 1] == Message(User, text)
  {
  }

  /** On success the reply is the completion text, and the assistant message
      stored last carries it. */
  lemma TurnSuccess(history: seq<Message>, text: string, prompt: string, service: CompletionService)
    requires service(Request(prompt, history + [Message(User, text)])).Completed?
    ensures var t := Turn(history, text, prompt, service);
      && t.reply == service(t.request).text
      && t.history[|t.history| - 1] == Message(Assistant, t.reply)
  {
  }

  /** On failure the reply starts with the fixed error prefix followed by the
      error's description, and the assistant message stored last carries it. */
  lemma TurnFailure(history: seq<Message>, text: string, prompt: string, service: CompletionService)
    requires service(Request(prompt, history + [Message(User, text)])).Failed?
    ensures var t := Turn(history, text, prompt, service);
      && t.reply == ErrorPrefix + service(t.request).detail
      && t.history[|t.history| - 1] == Message(Assistant, t.reply)
      && |t.history| == |history| + 2
  {
  }

  /** The message log after a sequence of turns: the `i`-th turn sends
      `texts[i]` and is answered by `services[i]`, so the same request may get
      a different outcome on different turns. */
  function Conversation(history: seq<Message>, texts: seq<string>, prompt: string, services: seq<CompletionService>): (log: seq<Message>)
    requires |services| == |texts|
    ensures |log| == |history| + 2 * |texts|
    decreases |texts|
  {
    if texts == [] then history
    else Conversation(Turn(history, texts[0], prompt, services[0]).history, texts[1..], prompt, services[1..])
  }

  /** One more turn at the end of a conversation is one more `Turn` on its log. */
  lemma {:induction false} ConversationExtend(history: seq<Message>, texts: seq<string>, prompt: string, services: seq<CompletionService>, text: string, service: CompletionService)
    requires |services| == |texts|
    ensures Conversation(history, texts + [text], prompt, services + [service])
      == Turn(Conversation(history, texts, prompt, services), text, prompt, service).history
    decreases |texts|
  {
    if texts == [] {
      assert Conversation(history, [text], prompt, [service])
        == Conversation(Turn(history, text, prompt, service).history, [], prompt, []);
    } else {
      var next := Turn(history, texts[0], prompt, services[0]).history;
      assert (texts + [text])[1..] == texts[1..] + [text];
      assert (services + [service])[1..] == services[1..] + [service];
      ConversationExtend(next, texts[1..], prompt, services[1..], text, service);
    }
  }

  /** `h` is `base` followed by one user/assistant pair per text in `texts`,
      the user messages carrying those texts in order. */
  ghost predicate PairsAfter(h: seq<Message>, base: seq<Message>, texts: seq<string>)
  {
    && |h| == |base| + 2 * |texts|
    && h[..|base|] == base
    && (forall i :: 0 <= i < |texts| ==> h[|base| + 2 * i] == Message(User, texts[i]))
    && (forall i :: 0 <= i < |texts| ==> h[|base| + 2 * i + 1].role == Assistant)
  }

  lemma PairsAfterStep(h: seq<Message>, history: seq<Message>, texts: seq<string>, reply: string)
    requires texts != []
    requires PairsAfter(h, history + [Message(User, texts[0]), Message(Assistant, reply)], texts[1..])
    ensures PairsAfter(h, history, texts)
  {
    var next := history + [Message(User, texts[0]), Message(Assistant, reply)];
    assert h[..|history|] == next[..|history|];
    assert h[|history|] == next[|history|];
    assert h[|history| + 1] == next[|history| + 1];
    forall i | 1 <= i < |texts|
      ensures h[|history| + 2 * i] == Message(User, texts[i])
      ensures h[|history| + 2 * i + 1].role == Assistant
    {
      assert texts[1..][i - 1] == texts[i];
      assert |history| + 2 * i == |next| + 2 * (i - 1);
    }
  }

  /** After `N` turns the log has grown by `2N` messages: the earlier log is
      kept, and the new messages alternate user, assistant, with the users'
      texts in the order they were sent, whatever each turn's outcome. */
  lemma {:induction false} ConversationShape(history: seq<Message>, texts: seq<string>, prompt: string, services: seq<CompletionService>)
    requires |services| == |texts|
    ensures PairsAfter(Conversation(history, texts, prompt, services), history, texts)
    decreases |texts|
  {
    if texts == [] {
      var h := Conversation(history, texts, prompt, services);
      assert h[..|history|] == history;
    } else {
      var t := Turn(history, texts[0], prompt, services[0]);
      TurnAppendsTwo(history, texts[0], prompt, services[0]);
      assert t.history == history + [Message(User, texts[0]), Message(Assistant, t.reply)];
      ConversationShape(t.history, texts[1..], prompt, services[1..]);
      PairsAfterStep(Conversation(history, texts, prompt, services), history, texts, t.reply);
    }
  }

  /** A session that starts empty holds, after `N` turns, exactly `2N`
      messages, alternating user and assistant and starting with the user. */
  lemma FreshConversationAlternates(texts: seq<string>, prompt: string, services: seq<CompletionService>)
    requires |services| == |texts|
    ensures var h := Conversation([], texts, prompt, services);
      && |h| == 2 * |texts|
      && forall k :: 0 <= k < |h| ==> h[k].role == (if k % 2 == 0 then User else Assistant)
  {
    ConversationShape([], texts, prompt, services);
    var h := Conversation([], texts, prompt, services);
    forall k | 0 <= k < |h|
      ensures h[k].role == (if k % 2 == 0 then User else Assistant)
    {
      var i := k / 2;
      assert k == 2 * i + k % 2 && i < |texts|;
      if k % 2 == 0 {
        assert h[2 * i] == Message(User, texts[i]);
      } else {
        assert h[2 * i + 1].role == Assistant;
      }
    }
  }

  /** A stub service that echoes "OK:" and the last entry of the request. */
  function Echo(request: seq<Message>): Outcome
  {
    if request == [] then Failed("empty request") else Completed("OK:" + request[|request| - 1].content)
  }

  /** Against the echo stub, a first turn "hi" answers "OK:hi" and leaves the
      log `[(user, "hi"), (assistant, "OK:hi")]`. */
  lemma EchoFirstTurn(prompt: string)
    ensures var t := Turn([], "hi", prompt, Echo);
      && t.reply == "OK:hi"
      && t.history == [Message(User, "hi"), Message(Assistant, "OK:hi")]
  {
  }
}
