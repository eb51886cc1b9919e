/** The essay tutor's session store and its turn bookkeeping: a dictionary
    from session id to session objects, each of which owns a message log
    that the tutor appends to in place. */
module EssayTutorAgent {
  import opened Wrappers
  import opened Chat

  /** The coarse workflow stage of a session. Nothing in the tutor moves a
      session out of the initial stage. */
  datatype Stage = TopicSelection | Brainstorming | Outline | Writing | Revision

  /** The tutor cannot be built without an API key. */
  datatype ConfigurationError = MissingApiKey

  /** One essay-writing session. The tutor hands out references to these
      objects, and a caller may set `topic` or `currentStage` on them. */
  class EssaySession {
    const sessionId: string
    var topic: Option<string>
    var messages: seq<Message>
    var currentStage: Stage

    /** A session built from its id alone: no topic, the initial stage and an
        empty message log. */
    constructor (sessionId: string)
      ensures this.sessionId == sessionId && IsEmpty()
    {
      this.sessionId := sessionId;
      topic := None;
      messages := [];
      currentStage := TopicSelection;
    }

    /** The field values of a session just built from its id. */
    predicate IsEmpty()
      reads this
    {
      topic == None && messages == [] && currentStage == TopicSelection
    }
  }

  /** The key the tutor is built with: the argument when it is non-empty,
      otherwise the environment's value; neither being set, or both being
      empty, is a configuration error. */
  function ResolveApiKey(argument: Option<string>, environment: Option<string>): (key: Result<string, ConfigurationError>)
    ensures key.Success? <==> (argument.Some? && argument.value != "") || (environment.Some? && environment.value != "")
    ensures key.Success? ==> key.value != ""
    ensures argument.Some? && argument.value != "" ==> key == Success(argument.value)
    ensures (argument == None || argument == Some("")) && key.Success? ==> environment == Some(key.value)
  {
    var chosen := if argument.Some? && argument.value != "" then argument else environment;
    if chosen.Some? && chosen.value != "" then Success(chosen.value) else Failure(MissingApiKey)
  }

  class EssayTutor {
    const apiKey: string
    const systemPrompt: string
    var sessions: map<string, EssaySession>

    /** Every session is stored under its own id, so two ids never share a
        session object. */
    ghost predicate Valid()
      reads this
    {
      && apiKey != ""
      && forall id :: id in sessions ==> sessions[id].sessionId == id
    }

    /** A tutor with the given key and system prompt and no sessions. */
    constructor (apiKey: string, systemPrompt: string)
      requires apiKey != ""
      ensures Valid()
      ensures this.apiKey == apiKey && this.systemPrompt == systemPrompt && sessions == map[]
    {
      this.apiKey := apiKey;
      this.systemPrompt := systemPrompt;
      sessions := map[];
    }

    /** Building a tutor: the key comes from the argument or the environment,
        and without one construction fails before any session exists. */
    static method New(argument: Option<string>, environment: Option<string>, systemPrompt: string)
      returns (tutor: Result<EssayTutor, ConfigurationError>)
      ensures tutor.Success? <==> ResolveApiKey(argument, environment).Success?
      ensures tutor.Failure? ==> tutor.error == MissingApiKey
      ensures tutor.Success? ==>
        && fresh(tutor.value) && tutor.value.Valid()
        && tutor.value.apiKey == ResolveApiKey(argument, environment).value
        && tutor.value.systemPrompt == systemPrompt
        && tutor.value.sessions == map[]
    {
      var key := ResolveApiKey(argument, environment);
      if key.Failure? {
        return Failure(key.error);
      }
      var t := new EssayTutor(key.value, systemPrompt);
      return Success(t);
    }

    /** Installs a new empty session under `id`, discarding any session held
        there before; other ids keep their sessions. */
    method CreateSession(id: string) returns (session: EssaySession)
      requires Valid()
      modifies this
      ensures Valid()
      ensures fresh(session) && session.sessionId == id && session.IsEmpty()
      ensures sessions == old(sessions)[id := session]
    {
      session := new EssaySession(id);
      sessions := sessions[id := session];
    }

    /** One tutoring turn on session `id`, with `service` standing for the
        completion call. An unknown id first gets a new session. The user's
        message and then the reply are appended to that session's log, the
        request is built from the log with the user's message in it, and the
        reply is the completion text or the synthesised error text. No other
        session changes. */
    method GetResponse(id: string, userMessage: string, service: CompletionService) returns (reply: string)
      requires Valid()
      modifies this, if id in sessions then {sessions[id]} else {}
      ensures Valid()
      ensures id in sessions && sessions.Keys == old(sessions.Keys) + {id}
      ensures id in old(sessions) ==>
        && sessions[id] == old(sessions[id])
        && sessions[id].topic == old(sessions[id].topic)
        && sessions[id].currentStage == old(sessions[id].currentStage)
      ensures id !in old(sessions) ==>
        && fresh(sessions[id]) && sessions[id].topic == None && sessions[id].currentStage == TopicSelection
        && |sessions[id].messages| == 2 && sessions[id].messages[0] == Message(User, userMessage)
      ensures var t := Turn(old(GetSessionHistory(id)), userMessage, systemPrompt, service);
        sessions[id].messages == t.history && reply == t.reply
      ensures forall k :: k in old(sessions) && k != id ==>
        sessions[k] == old(sessions[k]) && sessions[k].messages == old(sessions[k].messages)
    {
      if id !in sessions {
        var created := CreateSession(id);
      }
      var session := sessions[id];
      session.messages := session.messages + [Message(User, userMessage)];
      var request := PrepareRequest(systemPrompt, session.messages);
      var outcome := service(request);
      match outcome
      case Completed(text) =>
        session.messages := session.messages + [Message(Assistant, text)];
        reply := text;
      case Failed(detail) =>
        var errorMessage := ErrorPrefix + detail;
        session.messages := session.messages + [Message(Assistant, errorMessage)];
        reply := errorMessage;
    }

    /** A snapshot of the message log of `id`; empty for an unknown id. */
    function GetSessionHistory(id: string): (history: seq<Message>)
      reads this, sessions.Values
      ensures id !in sessions ==> history == []
      ensures id in sessions ==> history == sessions[id].messages
    {
      if id in sessions then sessions[id].messages else []
    }

    /** The session object stored under `id`, if any. */
    function GetSessionInfo(id: string): (info: Option<EssaySession>)
      reads this
      ensures info.Some? <==> id in sessions
      ensures info.Some? ==> info.value == sessions[id]
      ensures info.Some? && Valid() ==> info.value.sessionId == id
    {
      if id in sessions then Some(sessions[id]) else None
    }

    /** Replaces the session of a known id by a new empty one and answers
        true; an unknown id answers false and changes nothing. */
    method ResetSession(id: string) returns (existed: bool)
      requires Valid()
      modifies this
      ensures Valid()
      ensures existed <==> id in old(sessions)
      ensures !existed ==> sessions == old(sessions)
      ensures existed ==>
        && sessions.Keys == old(sessions.Keys)
        && fresh(sessions[id]) && sessions[id].sessionId == id && sessions[id].IsEmpty()
        && forall k :: k in sessions && k != id ==> sessions[k] == old(sessions[k])
    {
      if id in sessions {
        var session := new EssaySession(id);
        sessions := sessions[id := session];
        return true;
      }
      return false;
    }
  }

  /** The session-management scenario: sessions are created, the caller sets
      a topic through the returned reference and reads it back by id, the new
      history is empty, and resetting the first session succeeds, leaves its
      log empty and drops the topic, while resetting an unknown id fails and
      creates nothing. */
  method SessionManagementScenario()
    returns (topicSeen: bool, newHistory: seq<Message>, resetKnown: bool, resetHistory: seq<Message>,
             resetTopic: Option<string>, resetUnknown: bool, unknownAbsent: bool)
    ensures topicSeen && newHistory == []
    ensures resetKnown && resetHistory == [] && resetTopic == None
    ensures !resetUnknown && unknownAbsent
  {
    var tutor := new EssayTutor("test_key", "You are an expert essay writing tutor.");
    var first := tutor.CreateSession("session1");
    first.topic := Some("Topic for session1");
    var second := tutor.CreateSession("session2");
    newHistory := tutor.GetSessionHistory("session2");
    var info := tutor.GetSessionInfo("session1");
    topicSeen := info.Some? && info.value.topic == Some("Topic for session1");
    resetKnown := tutor.ResetSession("session1");
    resetHistory := tutor.GetSessionHistory("session1");
    resetTopic := tutor.sessions["session1"].topic;
    resetUnknown := tutor.ResetSession("missing");
    unknownAbsent := tutor.GetSessionInfo("missing") == None;
  }

  /** A first turn on a new id against the echo stub answers "OK:hi" and
      leaves the log `[(user, "hi"), (assistant, "OK:hi")]`; a failing
      service on a second id still yields one user/assistant pair there. */
  method EchoScenario() returns (reply: string, history: seq<Message>, failedReply: string, failedHistory: seq<Message>)
    ensures reply == "OK:hi"
    ensures history == [Message(User, "hi"), Message(Assistant, "OK:hi")]
    ensures failedReply == ErrorPrefix + "API Error"
    ensures failedHistory == [Message(User, "Hello"), Message(Assistant, failedReply)]
  {
    var tutor := new EssayTutor("test_key", "You are an expert essay writing tutor.");
    EchoFirstTurn(tutor.systemPrompt);
    reply := tutor.GetResponse("s1", "hi", Echo);
    history := tutor.GetSessionHistory("s1");
    failedReply := tutor.GetResponse("error_test", "Hello", (request: seq<Message>) => Failed("API Error"));
    failedHistory := tutor.GetSessionHistory("error_test");
  }

  /** One turn of the conversation-flow scenario keeps each earlier reply
      where it was stored and adds the new one after the new user message. */
  lemma RepliesKept(before: seq<Message>, after: seq<Message>, replies: seq<string>, reply: string)
    requires |before| == 2 * |replies| && |after| == |before| + 2 && after[..|before|] == before
    requires after[|before| + 1] == Message(Assistant, reply)
    requires forall j :: 0 <= j < |replies| ==> before[2 * j + 1] == Message(Assistant, replies[j])
    ensures forall j :: 0 <= j < |replies| + 1 ==> after[2 * j + 1] == Message(Assistant, (replies + [reply])[j])
  {
  }

  /** The conversation-flow scenario: a new tutor answers a sequence of
      messages on one session, the `i`-th answered by `services[i]`. The
      session's log is then the conversation of those turns: the users' texts
      in order, each followed by the reply that was returned for it. */
  method ConversationFlow(prompt: string, texts: seq<string>, services: seq<CompletionService>)
    returns (replies: seq<string>, history: seq<Message>)
    requires |services| == |texts|
    ensures history == Conversation([], texts, prompt, services)
    ensures |replies| == |texts| && |history| == 2 * |texts|
    ensures forall i :: 0 <= i < |texts| ==> history[2 * i + 1] == Message(Assistant, replies[i])
    ensures forall k :: 0 <= k < |history| ==> history[k].role == (if k % 2 == 0 then User else Assistant)
  {
    var tutor := new EssayTutor("test_key", prompt);
    var id := "flow_test";
    replies := [];
    var pending, answering := texts, services;
    ghost var log: seq<Message> := [];
    ghost var whole := Conversation([], texts, prompt, services);
    while pending != []
      invariant fresh(tutor) && tutor.Valid() && tutor.systemPrompt == prompt
      invariant id in tutor.sessions ==> fresh(tutor.sessions[id])
      invariant tutor.GetSessionHistory(id) == log
      invariant |answering| == |pending| && |replies| + |pending| == |texts| && |log| == 2 * |replies|
      invariant forall j :: 0 <= j < |replies| ==> log[2 * j + 1] == Message(Assistant, replies[j])
      invariant Conversation(log, pending, prompt, answering) == whole
      decreases |pending|
    {
      var reply := tutor.GetResponse(id, pending[0], answering[0]);
      ghost var turn := Turn(log, pending[0], prompt, answering[0]);
      TurnAppendsTwo(log, pending[0], prompt, answering[0]);
      RepliesKept(log, turn.history, replies, reply);
      log := turn.history;
      replies := replies + [reply];
      pending, answering := pending[1..], answering[1..];
    }
    history := tutor.GetSessionHistory(id);
    FreshConversationAlternates(texts, prompt, services);
  }
}
