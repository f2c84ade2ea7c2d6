/**
 * OpenAIGptSummarizer: one chat-completion request per transcript, answered
 * by the first choice's content, trimmed.
 */
module Summarization {
  import opened Outcomes
  import opened Text
  import opened Analytics
  import opened Options
  import opened Http
  import opened Chat

  const DefaultChatModel: string := "gpt-3.5-turbo"
  const SystemPrompt: string := "You are a helpful assistant that summarizes transcripts."
  const UserPromptPrefix: string := "Summarize the following transcript in 3-5 sentences:\n\n"

  /** The summarizer's read-only settings, fixed by its constructor. */
  datatype Summarizer = Summarizer(chatModel: string, temperature: Double)

  /** The constructor: configured chat model unless blank, configured temperature unless absent. */
  function NewSummarizer(options: OpenAIOptions): (s: Summarizer)
    ensures !IsBlank(s.chatModel)
    ensures !IsNullOrWhiteSpace(options.chatModel) ==> Some(s.chatModel) == options.chatModel
    ensures IsNullOrWhiteSpace(options.chatModel) ==> s.chatModel == DefaultChatModel
    ensures s.temperature == if options.temperature.Some? then options.temperature.value else PointSeven
  {
    assert !IsWhiteSpace(DefaultChatModel[0]);
    Summarizer(ConfiguredOr(options.chatModel, DefaultChatModel), options.temperature.GetOr(PointSeven))
  }

  /** The request SummarizeAsync posts: a system message, then the transcript in a user message. */
  function SummaryRequest(s: Summarizer, text: string): (r: ChatCompletionRequest)
    ensures r.model == s.chatModel && r.temperature == s.temperature
    ensures |r.messages| == 2
    ensures r.messages[0] == ChatMessage("system", SystemPrompt) && r.messages[1].role == "user"
  {
    ChatCompletionRequest(
      s.chatModel,
      [ChatMessage("system", SystemPrompt), ChatMessage("user", UserPromptPrefix + text)],
      s.temperature)
  }

  /** Reads the transcript back out of a summary request, if it has that shape. */
  function RequestedText(r: ChatCompletionRequest): Option<string> {
    if |r.messages| == 2 && r.messages[0] == ChatMessage("system", SystemPrompt)
       && r.messages[1].role == "user" && UserPromptPrefix <= r.messages[1].content
    then Some(r.messages[1].content[|UserPromptPrefix|..])
    else None
  }

  /** The transcript travels verbatim: the request determines the text exactly. */
  lemma SummaryRequestCarriesText(s: Summarizer, text: string)
    ensures RequestedText(SummaryRequest(s, text)) == Some(text)
  {
    var c := SummaryRequest(s, text).messages[1].content;
    assert c == UserPromptPrefix + text;
    assert c[|UserPromptPrefix|..] == text;
  }

  /**
   * SummarizeAsync: post, fail on a non-success status, deserialise, then
   * `completion?.Choices.FirstOrDefault()?.Message.Content.Trim() ?? ""`.
   */
  function Summarize(s: Summarizer, post: ChatTransport, parse: CompletionParser, text: string): Outcome<string> {
    var response :- post(ChatCompletionsUri, SummaryRequest(s, text));
    var checked :- EnsureSuccessStatusCode(response);
    var completion :- parse(checked.body);
    var message :- FirstChoiceMessage(completion);
    match message
    case None => Ok("")
    case Some(m) =>
      match m.content
      case None => Error(NullReferenceMessage)
      case Some(content) => Ok(Trim(content))
  }

  /** A non-success status fails the call before the body is read: the parser is never consulted. */
  lemma SummarizeChecksStatusFirst(s: Summarizer, post: ChatTransport, parse: CompletionParser, text: string)
    requires post(ChatCompletionsUri, SummaryRequest(s, text)).Ok?
    requires !post(ChatCompletionsUri, SummaryRequest(s, text)).value.IsSuccess()
    ensures Summarize(s, post, parse, text)
         == Error(StatusErrorMessage(post(ChatCompletionsUri, SummaryRequest(s, text)).value.statusCode))
  {
  }

  /** A summary never starts or ends with white space. */
  lemma SummaryIsTrimmed(s: Summarizer, post: ChatTransport, parse: CompletionParser, text: string)
    ensures var r := Summarize(s, post, parse, text);
      r.Ok? ==> Trim(r.value) == r.value && (r.value == [] || (!IsWhiteSpace(r.value[0]) && !IsWhiteSpace(r.value[|r.value| - 1])))
  {
    var r := Summarize(s, post, parse, text);
    if r.Ok? && r.value != [] {
      var c :| Trim(c) == r.value;
      TrimByIdempotent(c, IsWhiteSpace);
    }
  }

  /** The summary is the first choice's content, trimmed. */
  lemma SummaryIsFirstChoice(s: Summarizer, post: ChatTransport, parse: CompletionParser, text: string,
                             rest: seq<Option<Choice>>, role: Option<string>, content: string)
    requires post(ChatCompletionsUri, SummaryRequest(s, text)).Ok?
    requires post(ChatCompletionsUri, SummaryRequest(s, text)).value.IsSuccess()
    requires parse(post(ChatCompletionsUri, SummaryRequest(s, text)).value.body)
          == Ok(Some(ChatCompletionResponse(Some([Some(Choice(Some(ReceivedMessage(role, Some(content)))))] + rest))))
    ensures Summarize(s, post, parse, text) == Ok(Trim(content))
  {
  }

  /** No completion, or one without choices, gives the empty summary rather than an error. */
  lemma SummaryWithoutChoicesIsEmpty(s: Summarizer, post: ChatTransport, parse: CompletionParser, text: string)
    requires post(ChatCompletionsUri, SummaryRequest(s, text)).Ok?
    requires post(ChatCompletionsUri, SummaryRequest(s, text)).value.IsSuccess()
    requires var p := parse(post(ChatCompletionsUri, SummaryRequest(s, text)).value.body);
      p == Ok(None) || p == Ok(Some(ChatCompletionResponse(Some([]))))
    ensures Summarize(s, post, parse, text) == Ok("")
  {
  }

  /** A cancelled or failed transport call is passed on unchanged. */
  lemma SummarizePropagatesTransportFailure(s: Summarizer, post: ChatTransport, parse: CompletionParser, text: string)
    requires !post(ChatCompletionsUri, SummaryRequest(s, text)).Ok?
    ensures Summarize(s, post, parse, text) == post(ChatCompletionsUri, SummaryRequest(s, text)).PropagateFailure()
  {
  }
}
