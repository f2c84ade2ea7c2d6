/**
 * OpenAIAnalyticsExtractor: one chat-completion request asking for the
 * statistics as JSON; the first choice's content, untrimmed, is parsed into
 * AnalyticsData, and a null parse result is an error.
 */
module AnalyticsExtraction {
  import opened Outcomes
  import opened Text
  import opened Analytics
  import opened Options
  import opened Http
  import opened Chat

  const DefaultChatModel: string := "gpt-3.5-turbo"
  const SystemPrompt: string := "You are an AI assistant that analyzes transcripts and returns key statistics in JSON."
  const Instructions: string :=
    "Given the following transcript, calculate:\n"
    + "1. The total word count as 'word_count'.\n"
    + "2. Speaking speed in words per minute as 'speaking_speed_wpm' (assume duration is equal to transcript length divided by average speaking speed of 150 WPM if not specified).\n"
    + "3. A list 'frequently_mentioned_topics' containing the 3-5 most frequent significant topics (noun phrases), each with fields 'topic' and 'mentions'.\n"
    + "Return strictly a JSON object with those fields.\n\n"
  const TranscriptHeading: string := "Transcript:\n"
  const ParseFailureMessage: string := "Failed to parse analytics JSON from model response."

  /** Deserialising the content: null for the JSON literal null, an exception for malformed JSON. */
  type AnalyticsParser = string -> Outcome<Option<AnalyticsData>>

  /** The extractor's read-only setting, fixed by its constructor. */
  datatype AnalyticsExtractor = AnalyticsExtractor(chatModel: string)

  /** The constructor: configured chat model unless blank. No temperature is read. */
  function NewAnalyticsExtractor(options: OpenAIOptions): (e: AnalyticsExtractor)
    ensures !IsBlank(e.chatModel)
    ensures !IsNullOrWhiteSpace(options.chatModel) ==> Some(e.chatModel) == options.chatModel
    ensures IsNullOrWhiteSpace(options.chatModel) ==> e.chatModel == DefaultChatModel
  {
    assert !IsWhiteSpace(DefaultChatModel[0]);
    AnalyticsExtractor(ConfiguredOr(options.chatModel, DefaultChatModel))
  }

  /** The user prompt: fixed instructions, then the transcript heading and the transcript. */
  function UserPrompt(transcript: string): string {
    Instructions + TranscriptHeading + transcript
  }

  /** The request ExtractAnalyticsAsync posts: system message, user prompt, temperature 0.2. */
  function ExtractionRequest(e: AnalyticsExtractor, transcript: string): (r: ChatCompletionRequest)
    ensures r.model == e.chatModel && r.temperature == PointTwo
    ensures |r.messages| == 2
    ensures r.messages[0] == ChatMessage("system", SystemPrompt) && r.messages[1].role == "user"
    ensures EndsWith(r.messages[1].content, TranscriptHeading + transcript)
  {
    assert UserPrompt(transcript) == Instructions + (TranscriptHeading + transcript);
    ChatCompletionRequest(
      e.chatModel,
      [ChatMessage("system", SystemPrompt), ChatMessage("user", UserPrompt(transcript))],
      PointTwo)
  }

  /** Reads the transcript back out of an extraction request, if it has that shape. */
  function RequestedTranscript(r: ChatCompletionRequest): Option<string> {
    var prefix := Instructions + TranscriptHeading;
    if |r.messages| == 2 && r.messages[0] == ChatMessage("system", SystemPrompt)
       && r.messages[1].role == "user" && prefix <= r.messages[1].content
    then Some(r.messages[1].content[|prefix|..])
    else None
  }

  /** The transcript travels verbatim: the request determines it exactly. */
  lemma ExtractionRequestCarriesTranscript(e: AnalyticsExtractor, transcript: string)
    ensures RequestedTranscript(ExtractionRequest(e, transcript)) == Some(transcript)
  {
    var c := ExtractionRequest(e, transcript).messages[1].content;
    assert c == (Instructions + TranscriptHeading) + transcript;
    assert c[|Instructions + TranscriptHeading|..] == transcript;
  }

  /** The temperature is 0.2 whatever the configuration says. */
  lemma ExtractionTemperatureIsFixed(options: OpenAIOptions, transcript: string)
    ensures ExtractionRequest(NewAnalyticsExtractor(options), transcript).temperature == PointTwo
  {
  }

  /**
   * `completion?.Choices.FirstOrDefault()?.Message.Content ?? string.Empty`:
   * the first choice's content as it came, or "" when the chain yields null.
   */
  function SelectedContent(completion: Option<ChatCompletionResponse>): (r: Outcome<string>)
    ensures r.Ok? && r.value != "" ==>
      var m := FirstChoiceMessage(completion); m.Ok? && m.value.Some? && m.value.value.content == Some(r.value)
    ensures r.Ok? <==> FirstChoiceMessage(completion).Ok?
  {
    var message :- FirstChoiceMessage(completion);
    match message
    case None => Ok("")
    case Some(m) => Ok(m.content.GetOr(""))
  }

  /** ExtractAnalyticsAsync. */
  function ExtractAnalytics(e: AnalyticsExtractor, post: ChatTransport, parseCompletion: CompletionParser,
                            parseAnalytics: AnalyticsParser, transcript: string): Outcome<AnalyticsData> {
    var response :- post(ChatCompletionsUri, ExtractionRequest(e, transcript));
    var checked :- EnsureSuccessStatusCode(response);
    var completion :- parseCompletion(checked.body);
    var content :- SelectedContent(completion);
    var analytics :- parseAnalytics(content);
    if analytics.None? then Error(ParseFailureMessage) else Ok(analytics.value)
  }

  /** A non-success status fails the call before any parsing. */
  lemma ExtractChecksStatusFirst(e: AnalyticsExtractor, post: ChatTransport, parseCompletion: CompletionParser,
                                 parseAnalytics: AnalyticsParser, transcript: string)
    requires post(ChatCompletionsUri, ExtractionRequest(e, transcript)).Ok?
    requires !post(ChatCompletionsUri, ExtractionRequest(e, transcript)).value.IsSuccess()
    ensures ExtractAnalytics(e, post, parseCompletion, parseAnalytics, transcript)
         == Error(StatusErrorMessage(post(ChatCompletionsUri, ExtractionRequest(e, transcript)).value.statusCode))
  {
  }

  /** The first choice's content reaches the parser untrimmed. */
  lemma ParsedContentIsFirstChoice(completion: ChatCompletionResponse, rest: seq<Option<Choice>>,
                                   role: Option<string>, content: string)
    requires completion.choices == Some([Some(Choice(Some(ReceivedMessage(role, Some(content)))))] + rest)
    ensures SelectedContent(Some(completion)) == Ok(content)
  {
  }

  /** Without a completion, without choices, or without content, the parser receives "". */
  lemma ParsedContentDefaultsToEmpty(completion: Option<ChatCompletionResponse>)
    requires completion.None? || completion.value.choices == Some([])
             || (completion.value.choices.Some? && completion.value.choices.value != []
                 && completion.value.choices.value[0].Some?
                 && completion.value.choices.value[0].value.message.Some?
                 && completion.value.choices.value[0].value.message.value.content.None?)
    ensures SelectedContent(completion) == Ok("")
  {
  }

  /** Whatever is returned is exactly what the analytics parser produced from the selected content. */
  lemma ExtractReturnsParsedAnalytics(e: AnalyticsExtractor, post: ChatTransport, parseCompletion: CompletionParser,
                                      parseAnalytics: AnalyticsParser, transcript: string)
    ensures var r := ExtractAnalytics(e, post, parseCompletion, parseAnalytics, transcript);
      r.Ok? ==>
        var response := post(ChatCompletionsUri, ExtractionRequest(e, transcript));
        response.Ok? && response.value.IsSuccess()
        && parseCompletion(response.value.body).Ok?
        && SelectedContent(parseCompletion(response.value.body).value).Ok?
        && parseAnalytics(SelectedContent(parseCompletion(response.value.body).value).value) == Ok(Some(r.value))
  {
  }

  /** A null parse result is reported as an error, never as empty analytics. */
  lemma NullAnalyticsIsAnError(e: AnalyticsExtractor, post: ChatTransport, parseCompletion: CompletionParser,
                               parseAnalytics: AnalyticsParser, transcript: string)
    requires var response := post(ChatCompletionsUri, ExtractionRequest(e, transcript));
      response.Ok? && response.value.IsSuccess()
      && parseCompletion(response.value.body).Ok?
      && SelectedContent(parseCompletion(response.value.body).value).Ok?
      && parseAnalytics(SelectedContent(parseCompletion(response.value.body).value).value) == Ok(None)
    ensures ExtractAnalytics(e, post, parseCompletion, parseAnalytics, transcript) == Error(ParseFailureMessage)
  {
  }
}
