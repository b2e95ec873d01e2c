/**
 * The chat hook's bookkeeping: the history of user and assistant
 * messages, the loading flag and the error message. The request itself
 * is not sent here; its outcome is a parameter of `SendMessage`.
 */
module ChatHistory {
  import opened Wrappers

  datatype Role = System | User | Assistant

  datatype Message = Message(role: Role, content: string)

  /**
   * How the request ends: the reply's content, a response that is not ok
   * (with the body's `error`), or a thrown value, whose message is `Some`
   * when it is an `Error` and `None` otherwise.
   */
  datatype Outcome =
    | Reply(content: string)
    | NotOk(bodyError: Option<string>)
    | Thrown(errorMessage: Option<string>)

  /** What the request body holds besides the messages. */
  datatype Settings = Settings(model: string, maxTokens: int, temperature: real)

  const DefaultModel := "gpt-4o-mini"
  const DefaultMaxTokens := 1000
  const DefaultTemperature := 0.7

  /**
   * `options.model || 'gpt-4o-mini'`, `options.max_tokens || 1000` and
   * `options.temperature || 0.7`: an absent option and a falsy one (the
   * empty string, zero) both fall back to the default.
   */
  function RequestSettings(model: Option<string>, maxTokens: Option<int>, temperature: Option<real>): (r: Settings)
    ensures model.Some? && model.value != "" ==> r.model == model.value
    ensures !(model.Some? && model.value != "") ==> r.model == DefaultModel
    ensures maxTokens.Some? && maxTokens.value != 0 ==> r.maxTokens == maxTokens.value
    ensures !(maxTokens.Some? && maxTokens.value != 0) ==> r.maxTokens == DefaultMaxTokens
    ensures temperature.Some? && temperature.value != 0.0 ==> r.temperature == temperature.value
    ensures !(temperature.Some? && temperature.value != 0.0) ==> r.temperature == DefaultTemperature
  {
    Settings(
      if model.Some? && model.value != "" then model.value else DefaultModel,
      if maxTokens.Some? && maxTokens.value != 0 then maxTokens.value else DefaultMaxTokens,
      if temperature.Some? && temperature.value != 0.0 then temperature.value else DefaultTemperature)
  }

  /** `newMessages`: the system prompt when there is one, the history, then the new user message. */
  function RequestMessages(history: seq<Message>, content: string, systemPrompt: Option<string>): (r: seq<Message>)
    ensures var offset := if systemPrompt.Some? && systemPrompt.value != "" then 1 else 0;
            |r| == offset + |history| + 1
            && r[offset..offset + |history|] == history
            && r[|r| - 1] == Message(User, content)
            && (offset == 1 ==> r[0] == Message(System, systemPrompt.value))
  {
    (if systemPrompt.Some? && systemPrompt.value != "" then [Message(System, systemPrompt.value)] else [])
    + history + [Message(User, content)]
  }

  /**
   * The message `error` is set to when the request fails: a response that
   * is not ok throws an `Error` carrying the body's `error` or, when that
   * is falsy, a fixed text; an `Error` thrown on the way keeps its message
   * even when it is empty; any other thrown value gets a fixed text.
   */
  function FailureMessage(outcome: Outcome): (r: string)
    requires !outcome.Reply?
    ensures outcome.NotOk? ==> r != ""
    ensures outcome.NotOk? && outcome.bodyError.Some? && outcome.bodyError.value != "" ==> r == outcome.bodyError.value
    ensures outcome.NotOk? && !(outcome.bodyError.Some? && outcome.bodyError.value != "") ==> r == "Failed to get response from OpenAI"
    ensures outcome.Thrown? && outcome.errorMessage.Some? ==> r == outcome.errorMessage.value
    ensures outcome.Thrown? && outcome.errorMessage.None? ==> r == "An unknown error occurred"
  {
    match outcome
    case NotOk(e) => if e.Some? && e.value != "" then e.value else "Failed to get response from OpenAI"
    case Thrown(m) => if m.Some? then m.value else "An unknown error occurred"
  }

  /** No stored message is a system message. */
  predicate NoSystemMessages(messages: seq<Message>) {
    forall i :: 0 <= i < |messages| ==> messages[i].role != System
  }

  /**
   * The history after a request: a reply appends the user message and
   * then the reply; a failure leaves it as it was.
   */
  function HistoryAfter(history: seq<Message>, content: string, outcome: Outcome): (r: seq<Message>)
    ensures outcome.Reply? ==> r == history + [Message(User, content), Message(Assistant, outcome.content)]
    ensures !outcome.Reply? ==> r == history
  {
    if outcome.Reply? then history + [Message(User, content), Message(Assistant, outcome.content)] else history
  }

  /** The system prompt is sent but never stored. */
  lemma SystemPromptNeverStored(history: seq<Message>, content: string, outcome: Outcome)
    requires NoSystemMessages(history)
    ensures NoSystemMessages(HistoryAfter(history, content, outcome))
  {
  }

  class Chat {
    var messages: seq<Message>
    var isLoading: bool
    var error: Option<string>

    ghost predicate Valid()
      reads this
    {
      NoSystemMessages(messages)
    }

    constructor()
      ensures messages == [] && !isLoading && error == None && Valid()
    {
      messages, isLoading, error := [], false, None;
    }

    /**
     * `sendMessage`: sets the loading flag and clears the error, sends the
     * request, then records the exchange or the error; either way the
     * loading flag is false at the end. A failure is passed on to the
     * caller as `Err`.
     */
    method SendMessage(content: string, systemPrompt: Option<string>, outcome: Outcome)
      returns (request: seq<Message>, result: Result<string, string>)
      requires Valid()
      modifies this
      ensures request == RequestMessages(old(messages), content, systemPrompt)
      ensures messages == HistoryAfter(old(messages), content, outcome)
      ensures outcome.Reply? ==> error == None && result == Ok(outcome.content)
      ensures !outcome.Reply? ==> error == Some(FailureMessage(outcome)) && result == Err(FailureMessage(outcome))
      ensures !isLoading && Valid()
    {
      isLoading := true;
      error := None;
      request := RequestMessages(messages, content, systemPrompt);
      if outcome.Reply? {
        messages := messages + [Message(User, content), Message(Assistant, outcome.content)];
        result := Ok(outcome.content);
      } else {
        var message := FailureMessage(outcome);
        error := Some(message);
        result := Err(message);
      }
      isLoading := false;
    }

    /** `clearMessages` */
    method ClearMessages()
      modifies this
      ensures messages == [] && error == None && isLoading == old(isLoading) && Valid()
    {
      messages := [];
      error := None;
    }

    /** `addMessage`, whose role is the user's or the assistant's. */
    method AddMessage(role: Role, content: string)
      requires role != System && Valid()
      modifies this
      ensures messages == old(messages) + [Message(role, content)]
      ensures error == old(error) && isLoading == old(isLoading) && Valid()
    {
      messages := messages + [Message(role, content)];
    }
  }
}
