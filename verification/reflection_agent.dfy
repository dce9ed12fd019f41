/**
 * The conversation round trip (composables/useReflectionAgent.ts): the
 * message list, the input box, the loading flag and the credential dialog,
 * updated by `sendMessage` around one model invocation, and `initialize`,
 * which creates the client from a stored and revalidated key.
 */
module ReflectionAgent {
  import opened Wrappers
  import opened JsText
  import opened ModelConfigs
  import opened BrowserStorage
  import opened AIModel
  import opened ApiKeyValidation

  datatype Role = Human | Assistant | System | ErrorRole

  /** A conversation entry as the UI stores it. */
  datatype Message = Message(role: Role, content: string)

  /** The message classes of the chat SDK; `OtherMessage` stands for any further class (tool messages, say). */
  datatype ChatMessage =
    | HumanMessage(content: string)
    | AIMessage(content: string)
    | SystemMessage(content: string)
    | OtherMessage(content: string)

  const SYSTEM_PROMPT: string := "You are a helpful AI assistant."
  const FAILURE_REPLY: string := "Failed to get response. Please try again."
  const UNSUPPORTED_MESSAGE: string := "Unsupported message type"

  /** `convertMessage`: an SDK message as a stored one; any other message class throws. */
  function ConvertMessage(msg: ChatMessage): (r: Result<Message, string>)
    ensures r.Failure? <==> msg.OtherMessage?
    ensures r.Failure? ==> r.error == UNSUPPORTED_MESSAGE
    ensures r.Success? ==> r.value.content == msg.content && r.value.role != ErrorRole
    ensures r.Success? ==>
              && (r.value.role == Human <==> msg.HumanMessage?)
              && (r.value.role == Assistant <==> msg.AIMessage?)
              && (r.value.role == System <==> msg.SystemMessage?)
  {
    match msg
    case HumanMessage(c) => Success(Message(Human, c))
    case AIMessage(c) => Success(Message(Assistant, c))
    case SystemMessage(c) => Success(Message(System, c))
    case OtherMessage(_) => Failure(UNSUPPORTED_MESSAGE)
  }

  /** How a stored message is sent: human messages as human, every other role (error included) as AI. */
  function ToChatMessage(m: Message): (c: ChatMessage)
    ensures c.content == m.content
    ensures c.HumanMessage? <==> m.role == Human
    ensures c.AIMessage? <==> m.role != Human
  {
    if m.role == Human then HumanMessage(m.content) else AIMessage(m.content)
  }

  /** Sending then converting back gives the human and assistant messages unchanged; the others come back as assistant messages. */
  lemma ConvertAfterSend(m: Message)
    ensures ConvertMessage(ToChatMessage(m)) ==
              Success(if m.role == Human then m else Message(Assistant, m.content))
  {
  }

  /** The stored messages, each as sent. */
  function ToChatMessages(ms: seq<Message>): (cs: seq<ChatMessage>)
    ensures |cs| == |ms|
    ensures forall i :: 0 <= i < |ms| ==> cs[i] == ToChatMessage(ms[i])
  {
    if ms == [] then [] else [ToChatMessage(ms[0])] + ToChatMessages(ms[1..])
  }

  /** The prompt: one system message, then every stored message in order. */
  function Prompt(ms: seq<Message>): (p: seq<ChatMessage>)
    ensures |p| == |ms| + 1 && p[0] == SystemMessage(SYSTEM_PROMPT)
    ensures forall i :: 0 <= i < |ms| ==> p[i + 1] == ToChatMessage(ms[i])
  {
    [SystemMessage(SYSTEM_PROMPT)] + ToChatMessages(ms)
  }

  /** A value a rejected promise carries: an `Error` object with its message, or anything else. */
  datatype Thrown = ErrorObject(message: string) | NonErrorValue

  /** What invoking the model gives: a response with its content, or an exception. */
  datatype InvokeOutcome = Responded(content: string) | Raised(thrown: Thrown)

  /** A failure that asks for a new key: an `Error` whose message mentions "API key". */
  predicate IsCredentialError(o: InvokeOutcome)
    ensures o.Responded? ==> !IsCredentialError(o)
    ensures IsCredentialError(o) ==> o.thrown.ErrorObject? && |o.thrown.message| >= |"API key"|
    ensures o.Raised? && o.thrown.ErrorObject? && "API key" <= o.thrown.message ==> IsCredentialError(o)
  {
    o.Raised? && o.thrown.ErrorObject? && Includes(o.thrown.message, "API key")
  }

  /** The one message appended after the invocation: the response, or the fixed failure text. */
  function Reply(o: InvokeOutcome): (m: Message)
    ensures o.Responded? ==> m == Message(Assistant, o.content)
    ensures o.Raised? ==> m == Message(ErrorRole, FAILURE_REPLY)
  {
    match o
    case Responded(c) => Message(Assistant, c)
    case Raised(_) => Message(ErrorRole, FAILURE_REPLY)
  }

  class ReflectionAgent {
    var messages: seq<Message>
    var isLoading: bool
    var showApiKeyDialog: bool
    var newMessage: string
    const ai: AIModel
    const keys: ApiKeyValidation

    constructor(storage: WebStorage)
      ensures fresh(ai) && fresh(keys) && ai.storage == storage && keys.storage == storage
      ensures messages == [] && !isLoading && !showApiKeyDialog && newMessage == ""
      ensures ai.config == DefaultConfig && ai.model == None && keys.error == None
    {
      messages := [];
      isLoading := false;
      showApiKeyDialog := false;
      newMessage := "";
      ai := new AIModel(storage);
      keys := new ApiKeyValidation(storage);
    }

    /** `sendMessage` does nothing when the trimmed input is empty, a send is in flight, or there is no client. */
    predicate Blocked()
      reads this, ai
      ensures AllWhitespace(newMessage) || isLoading || ai.model.None? ==> Blocked()
      ensures !Blocked() ==> exists i :: 0 <= i < |newMessage| && !IsWhitespace(newMessage[i])
    {
      Trim(newMessage) == "" || isLoading || ai.model.None?
    }

    /**
     * `sendMessage`: unless blocked, clears the input, appends the trimmed
     * text as a human message, invokes the client with the prompt (returned
     * here; `None` when blocked), appends exactly one reply, and on a
     * credential failure drops the client and reopens the key dialog. The
     * loading flag is cleared at the end whatever the outcome.
     */
    method SendMessage(outcome: InvokeOutcome) returns (sent: Option<seq<ChatMessage>>)
      modifies this`messages, this`isLoading, this`showApiKeyDialog, this`newMessage, ai`model
      ensures old(Blocked()) ==> sent == None && unchanged(this) && unchanged(ai)
      ensures !old(Blocked()) ==>
                var question := Message(Human, Trim(old(newMessage)));
                && sent == Some(Prompt(old(messages) + [question]))
                && messages == old(messages) + [question, Reply(outcome)]
                && newMessage == "" && !isLoading
                && showApiKeyDialog == (old(showApiKeyDialog) || IsCredentialError(outcome))
                && ai.model == (if IsCredentialError(outcome) then None else old(ai.model))
    {
      if Blocked() {
        return None;
      }
      var content := Trim(newMessage);
      newMessage := "";
      var prompt := Exchange(content, outcome);
      sent := Some(prompt);
    }

    /**
     * The body of `sendMessage` past its guard: appends the question,
     * invokes the client with the prompt, appends exactly one reply and,
     * on a credential failure, drops the client and reopens the key dialog.
     */
    method Exchange(content: string, outcome: InvokeOutcome) returns (prompt: seq<ChatMessage>)
      modifies this`messages, this`isLoading, this`showApiKeyDialog, ai`model
      ensures prompt == Prompt(old(messages) + [Message(Human, content)])
      ensures messages == old(messages) + [Message(Human, content), Reply(outcome)]
      ensures !isLoading
      ensures showApiKeyDialog == (old(showApiKeyDialog) || IsCredentialError(outcome))
      ensures ai.model == (if IsCredentialError(outcome) then None else old(ai.model))
    {
      isLoading := true;
      messages := messages + [Message(Human, content)];
      prompt := Prompt(messages);
      match outcome {
        case Responded(text) =>
          messages := messages + [Message(Assistant, text)];
        case Raised(thrown) =>
          messages := messages + [Message(ErrorRole, FAILURE_REPLY)];
          if IsCredentialError(outcome) {
            showApiKeyDialog := true;
            ai.model := None;
          }
      }
      isLoading := false;
    }

    /**
     * `initialize`: with a stored non-empty key, revalidates it (the
     * request's outcome is `response`) and builds the client when it is
     * accepted; with no key, or a rejected one, opens the key dialog and
     * leaves the client alone.
     */
    method Initialize(response: FetchOutcome)
      modifies this`showApiKeyDialog, ai`model, keys`error, keys`requests, keys.storage`apiKeyEntry
      ensures var saved := if keys.storage.inBrowser then old(keys.storage.apiKeyEntry) else None;
              if !Truthy(saved) then
                && showApiKeyDialog && ai.model == old(ai.model)
                && unchanged(keys) && unchanged(keys.storage)
              else
                var v := Decide(saved.value, response, keys.storage.inBrowser);
                && keys.error == v.error && keys.requests == old(keys.requests) + [saved.value]
                && keys.storage.apiKeyEntry == old(keys.storage.apiKeyEntry)
                && (v.valid ==> ai.model == ClientFor(ai.config, saved) && showApiKeyDialog == old(showApiKeyDialog))
                && (!v.valid ==> ai.model == old(ai.model) && showApiKeyDialog)
    {
      var savedKey := keys.GetStoredApiKey();
      if Truthy(savedKey) {
        var isValid := keys.ValidateApiKey(savedKey.value, response);
        if isValid {
          var _ := ai.InitializeModel(savedKey);
        } else {
          showApiKeyDialog := true;
        }
      } else {
        showApiKeyDialog := true;
      }
    }
  }

  /** The prompt built for a round trip ends with the new question, sent as a human message. */
  lemma PromptEndsWithQuestion(before: seq<Message>, question: string)
    ensures var p := Prompt(before + [Message(Human, question)]);
            p[|p| - 1] == HumanMessage(question) && p[1..|p| - 1] == ToChatMessages(before)
  {
    var ms := before + [Message(Human, question)];
    var p := Prompt(ms);
    assert p[|p| - 1] == ToChatMessage(ms[|before|]);
    var middle, sent := p[1..|p| - 1], ToChatMessages(before);
    assert |middle| == |sent| == |before|;
    forall i | 0 <= i < |before| ensures middle[i] == sent[i] {
      assert middle[i] == p[i + 1] == ToChatMessage(ms[i]);
      assert ms[i] == before[i];
    }
  }

  /** An exception whose message mentions "API key" is a credential error; one that is not an `Error` never is. */
  lemma CredentialErrorExamples(prefix: string, suffix: string)
    ensures IsCredentialError(Raised(ErrorObject(prefix + "API key" + suffix)))
    ensures !IsCredentialError(Raised(NonErrorValue))
    ensures !IsCredentialError(Responded(prefix))
  {
    var s := prefix + "API key" + suffix;
    assert "API key" <= s[|prefix|..];
  }
}
