/**
 * The chat-completion request and response shapes shared by the summarizer
 * and the analytics extractor, and the first-choice selection they both make.
 * JSON serialisation is not modelled: a request is handed to the transport as
 * a value, and a response body is turned into a value by a parser passed in.
 */
module Chat {
  import opened Outcomes
  import opened Analytics
  import opened Http

  /** The relative URI both chat clients post to. */
  const ChatCompletionsUri: string := "v1/chat/completions"

  datatype ChatMessage = ChatMessage(role: string, content: string)

  datatype ChatCompletionRequest = ChatCompletionRequest(
    model: string,
    messages: seq<ChatMessage>,
    temperature: Double)

  /** A message as deserialised: JSON may leave either field null. */
  datatype ReceivedMessage = ReceivedMessage(role: Option<string>, content: Option<string>)

  /** One candidate; its message is null when the JSON omits it. */
  datatype Choice = Choice(message: Option<ReceivedMessage>)

  /** The choices list is null when the JSON says "choices": null; an element may be null too. */
  datatype ChatCompletionResponse = ChatCompletionResponse(choices: Option<seq<Option<Choice>>>)

  /** PostAsJsonAsync(relativeUri, request): a response, or a thrown exception. */
  type ChatTransport = (string, ChatCompletionRequest) -> Outcome<HttpResponse>

  /** Deserialising a body: null for the JSON literal null, an exception for malformed JSON. */
  type CompletionParser = string -> Outcome<Option<ChatCompletionResponse>>

  const NullReferenceMessage: string := "Object reference not set to an instance of an object."

  /**
   * `completion?.Choices.FirstOrDefault()?.Message`, dereferenced: None when
   * the null-conditional chain stops (no completion, no choices, a null first
   * choice); an exception when Choices is null (FirstOrDefault on a null
   * source) or when the first choice has no message (the following member
   * access dereferences it).
   */
  function FirstChoiceMessage(completion: Option<ChatCompletionResponse>): (r: Outcome<Option<ReceivedMessage>>)
    ensures completion.None? ==> r == Ok(None)
    ensures completion.Some? && completion.value.choices == Some([]) ==> r == Ok(None)
    ensures r.Ok? && r.value.Some? ==>
      completion.Some? && completion.value.choices.Some? && |completion.value.choices.value| > 0
      && completion.value.choices.value[0] == Some(Choice(r.value))
  {
    match completion
    case None => Ok(None)
    case Some(c) =>
      match c.choices
      case None => Error(NullSourceMessage)
      case Some(choices) =>
        if choices == [] || choices[0].None? then Ok(None)
        else match choices[0].value.message
          case None => Error(NullReferenceMessage)
          case Some(m) => Ok(Some(m))
  }
}
