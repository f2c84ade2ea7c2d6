# WhisperTranscriberApp core, modelled in Dafny

WhisperTranscriberApp is a console program. It sends an audio file to OpenAI's
transcription endpoint, has the transcript summarized and analysed by a chat
model, prints the results and saves them as three Markdown files. This
project models the logic inside that plumbing and proves what it promises:

- **`TranscriptionRunner`** (`runner.dfy`, module `Runners`, with the properties in `runner_properties.dfy`).
  - Argument mode versus the interactive loop.
  - How a console line becomes a command: "exit", "help", blank, or a path.
  - Quote stripping and the missing-file check.
  - The fixed order transcribe, summarize, extract, save.
  - The catch clauses, which end a run at the first failure.

  The runner is a class. Its fields are a trace of service calls and a trace
  of what is shown. Its methods are proved against functions that say what
  one file, or one session, produces.
- **`OpenAIWhisperTranscriber`** (`transcription.dfy`).
  - The upload media type (`GetMimeType`).
  - The model-name default.
  - The `BaseAddress` default, which a method on a mutable `HttpClient` installs.
  - The multipart form.
  - The null-text fallback.
- **`MarkdownResultSaver`** (`saving.dfy`, `timestamps.dfy`).
  - The output file names.
  - The contents of the three documents.
  - The topic lines in stable descending order of mentions (`analytics.dfy`).
  - The write order and what a failure partway through leaves behind.

  `SaveAsync` is a method on a `FileSystem` class. Its effect is stated through the `SaveEffect` function.
- **`ServiceCollectionExtensions.ConfigureClient`** (`clientconfig.dfy`).
  - The API-key fallback to `OPENAI_API_KEY`.
  - The two validation errors, with the key checked first.
  - Base-URL normalisation.
  - The client's new state.
- **`OpenAIGptSummarizer`** and **`OpenAIAnalyticsExtractor`** (`summarization.dfy`, `extraction.dfy`, `chat.dfy`).
  - Constructor defaults.
  - The two-message request.
  - First-choice selection: the summarizer trims it and the extractor does not.
  - The extractor's parse-failure error.

Everything outside the process is a parameter. The services are functions
from their arguments to `Ok(value)`, `Cancelled` (an
`OperationCanceledException`) or `Error(message)` (any other exception).
This covers:

- the services themselves;
- HTTP transport and JSON parsing;
- the MIME lookup table;
- `File.Exists` and file-system failures;
- the clock (`DateTime.Now`);
- the `F2` number format;
- the System.Uri check.

Supporting modules model the .NET library behaviour the core relies on:

- `text.dfy`: `Trim`, `Trim(char)`, `IsNullOrWhiteSpace`, ordinal ignore-case comparison and integer formatting.
- `paths.dfy`: `Path.GetFileName`, `GetExtension`, `GetFileNameWithoutExtension` and `Combine`, on '/' paths.
- `http.dfy`: `EnsureSuccessStatusCode`.
- `options.dfy`: the `OpenAIOptions` record.

## Model

| member | source | states |
|---|---|---|
| `Runners.Runner.Execute` | AI-challenge-task-11/WhisperTranscriberApp/Runners/TranscriptionRunner.cs:28-57 | After the banner and help, with an argument exactly `args[0]` is processed once and no console line is read. Without one, the calls, displays and lines read are those of the interactive session `ConsoleSession`, which is the corrected loop that ends at the end of input (see Findings; the loop as written is `Runners.IterateAsWritten`). |
| `Runners.Runner.Interact` | AI-challenge-task-11/WhisperTranscriberApp/Runners/TranscriptionRunner.cs:41-56 | Models the corrected loop, which stops at the end of input (see Findings; the loop as written is `Runners.IterateAsWritten`). Its calls, displays and the number of lines read are exactly those of `ConsoleSession(services, lines)`. |
| `Runners.Runner.Iteration` | AI-challenge-task-11/WhisperTranscriberApp/Runners/TranscriptionRunner.cs:42-55 | One pass of the corrected loop reads one line. It stops at "exit" or, as corrected, at the end of input, where the loop as written (`Runners.IterateAsWritten`) reads "" and goes on. Otherwise the session continues from the next line, and what has been done so far plus what is left equals the whole session from this line. |
| `Runners.Runner.Carry` | AI-challenge-task-11/WhisperTranscriberApp/Runners/TranscriptionRunner.cs:43-55 | A pass for a command other than "exit" prompts, responds, and leaves exactly the session from the next line to do. |
| `Runners.Runner.NextCommand` | AI-challenge-task-11/WhisperTranscriberApp/Runners/TranscriptionRunner.cs:44 | The command read at position `pos` is the command of the `pos`-th line. |
| `Runners.Runner.RespondTo` | AI-challenge-task-11/WhisperTranscriberApp/Runners/TranscriptionRunner.cs:47-55 | "help" shows help and calls nothing. A blank line does nothing. A path is processed by ProcessFileAsync. |
| `Runners.CommandsAt` | AI-challenge-task-11/WhisperTranscriberApp/Runners/TranscriptionRunner.cs:44-53 | There is one command per console line, and the i-th is the trimmed i-th line classified as exit, help, blank or path. |
| `Runners.Interactive` | AI-challenge-task-11/WhisperTranscriberApp/Runners/TranscriptionRunner.cs:41-56 | A session from line `pos` reads at least `pos` lines and never more than there are. It ends at the end of input, as corrected in the findings below. |
| `Runners.ConsoleSession` | AI-challenge-task-11/WhisperTranscriberApp/Runners/TranscriptionRunner.cs:41-56 | The session never reads past the last console line. |
| `Runners.ProcessWithProcesses` | AI-challenge-task-11/WhisperTranscriberApp/Runners/TranscriptionRunner.cs:55 | The session processes every path with ProcessFileAsync and the runner's services. |
| `Runners.Runner.ProcessFile` | AI-challenge-task-11/WhisperTranscriberApp/Runners/TranscriptionRunner.cs:59-116 | Processing one file appends exactly the calls and displays of `Process(services, filePath)` to the runner's traces. |
| `Runners.Runner.ProcessUnquoted` | AI-challenge-task-11/WhisperTranscriberApp/Runners/TranscriptionRunner.cs:63-116 | A missing file shows "not found" and calls nothing. Otherwise "Transcribing" is shown, then the transcription step and everything after it. |
| `Runners.Runner.TranscribeStage` | AI-challenge-task-11/WhisperTranscriberApp/Runners/TranscriptionRunner.cs:77-79 | The transcriber is called on the path. A failure is reported by the catch clause. A transcript is shown and passed to the summarization step. |
| `Runners.Runner.SummarizeStage` | AI-challenge-task-11/WhisperTranscriberApp/Runners/TranscriptionRunner.cs:81-83 | The summarizer is called on the transcript. A failure is reported. A summary is shown and the analytics step follows. |
| `Runners.Runner.ExtractStage` | AI-challenge-task-11/WhisperTranscriberApp/Runners/TranscriptionRunner.cs:85-98 | The extractor is called on the transcript. A failure is reported. The analytics block and the closing rule are shown, and saving follows. |
| `Runners.Runner.SaveStage` | AI-challenge-task-11/WhisperTranscriberApp/Runners/TranscriptionRunner.cs:100-104 | The saver receives the path, transcript, summary and analytics. A failure is reported. Otherwise "Processing complete" is shown. |
| `Runners.Runner.Report` | AI-challenge-task-11/WhisperTranscriberApp/Runners/TranscriptionRunner.cs:106-115 | A cancellation shows the cancellation message and any other exception shows its message. Nothing is called. |
| `Runners.Runner.ShowAnalytics` | AI-challenge-task-11/WhisperTranscriberApp/Runners/TranscriptionRunner.cs:87-97 | Shows the word count and speed. A null topic list then throws (`Any()` on a null source), which `r` returns as the ArgumentNullException message. Otherwise, only when there are topics, it shows the heading and one row per topic in the stable descending order of mentions. |
| `Runners.Runner.ShowTopics` | AI-challenge-task-11/WhisperTranscriberApp/Runners/TranscriptionRunner.cs:90-97 | The heading and the rows appear exactly when the list is non-empty, and the rows are those of the stably ordered topics. |
| `Runners.Runner.ShowTopicRows` | AI-challenge-task-11/WhisperTranscriberApp/Runners/TranscriptionRunner.cs:93-96 | The foreach writes one row per topic, in the order given, and calls nothing. |
| `Runners.Runner.constructor` | AI-challenge-task-11/WhisperTranscriberApp/Runners/TranscriptionRunner.cs:20-26 | A new runner holds the given services and has called and shown nothing. |
| `Runners.AsWrittenSpinsAtEndOfInput` | AI-challenge-task-11/WhisperTranscriberApp/Runners/TranscriptionRunner.cs:41-53 | The loop as written, once input is exhausted, reads null, treats it as a blank line and prompts again. After any number of iterations it has not finished, has called nothing and has shown only prompts. |
| `Runners.CommandReadAtIsConsoleRead` | AI-challenge-task-11/WhisperTranscriberApp/Runners/TranscriptionRunner.cs:43 | Reading position `pos` of the commands of the console lines gives what `Console.ReadLine()?.Trim() ?? string.Empty` yields there: the line's command, or a blank line past the end. |
| `RunnerProperties.AsWrittenAgreesUpToExit` | AI-challenge-task-11/WhisperTranscriberApp/Runners/TranscriptionRunner.cs:41-56 | When the input holds an "exit" line, the loop as written, given enough passes to reach it, has finished, and has read, called and shown exactly what the corrected session does. |
| `RunnerProperties.AsWrittenStep` | AI-challenge-task-11/WhisperTranscriberApp/Runners/TranscriptionRunner.cs:42-55 | One pass of the loop as written over a line other than "exit" prompts, does what the command asks, and continues with the next line. |
| `RunnerProperties.MissingFileMakesNoCalls` | AI-challenge-task-11/WhisperTranscriberApp/Runners/TranscriptionRunner.cs:61-69 | A run ends as "not found" exactly when the unquoted path does not exist. It then makes no service call and shows only the not-found message with that path. |
| `RunnerProperties.ProcessCallsInOrder` | AI-challenge-task-11/WhisperTranscriberApp/Runners/TranscriptionRunner.cs:77-100 | At most four calls, in the order transcribe, summarize, extract, save. Each later call happens only if the earlier ones succeeded, and save also only when the topic list is not null. Each call receives what the earlier ones returned: summarize and extract get the transcript, save gets the path, transcript, summary and analytics. |
| `RunnerProperties.ProcessCompletesIffAllSucceed` | AI-challenge-task-11/WhisperTranscriberApp/Runners/TranscriptionRunner.cs:63-104 | A run completes exactly when the file exists, all four services succeed and the topic list is not null, and then all four calls were made. |
| `RunnerProperties.TranscriptionFailureReported` | AI-challenge-task-11/WhisperTranscriberApp/Runners/TranscriptionRunner.cs:77-115 | A transcriber failure ends the run after the one transcribe call. A cancellation ends it as cancelled with the cancellation notice last; an error ends it as failed with that message, and the error notice for it is shown last. |
| `RunnerProperties.SummaryFailureReported` | AI-challenge-task-11/WhisperTranscriberApp/Runners/TranscriptionRunner.cs:82-115 | A summarizer failure ends the run after transcribe and summarize, reported last as a cancellation notice or as the error notice with its message. |
| `RunnerProperties.ExtractionFailureReported` | AI-challenge-task-11/WhisperTranscriberApp/Runners/TranscriptionRunner.cs:86-115 | An extractor failure ends the run after transcribe, summarize and extract, reported last as a cancellation notice or as the error notice with its message. |
| `RunnerProperties.NullTopicsFailBeforeSaving` | AI-challenge-task-11/WhisperTranscriberApp/Runners/TranscriptionRunner.cs:86-115 | With a null topic list the counts are shown, `Any()` throws, and the run fails with the ArgumentNullException message shown last. The saver is never called. |
| `RunnerProperties.SaveFailureReported` | AI-challenge-task-11/WhisperTranscriberApp/Runners/TranscriptionRunner.cs:100-115 | A saver failure comes after all four calls and is reported last as a cancellation notice or as the error notice with its message; "Processing complete" is not shown. |
| `RunnerProperties.ProcessReportsOutcomeOnce` | AI-challenge-task-11/WhisperTranscriberApp/Runners/TranscriptionRunner.cs:59-116 | Every run shows something, and no notice appears before the last item. A cancellation or an exception is reported once, last, with a cancellation notice distinct from an error notice carrying the message. A completed or not-found run shows no notice. |
| `RunnerProperties.PrependKeepsReport` | AI-challenge-task-11/WhisperTranscriberApp/Runners/TranscriptionRunner.cs:73-98 | Items shown before a step, if they hold no notice, keep the step's report-once property. |
| `RunnerProperties.FailReports` | AI-challenge-task-11/WhisperTranscriberApp/Runners/TranscriptionRunner.cs:106-115 | A caught failure ends the run with exactly its notice. |
| `RunnerProperties.TranscriptionRunReportsOutcomeOnce` | AI-challenge-task-11/WhisperTranscriberApp/Runners/TranscriptionRunner.cs:77-115 | The report-once property holds from the transcription step on, and such a run never ends as "not found". |
| `RunnerProperties.SummaryRunReportsOutcomeOnce` | AI-challenge-task-11/WhisperTranscriberApp/Runners/TranscriptionRunner.cs:81-115 | The same, from the summarization step on. |
| `RunnerProperties.ExtractionRunReportsOutcomeOnce` | AI-challenge-task-11/WhisperTranscriberApp/Runners/TranscriptionRunner.cs:85-115 | The same, from the analytics step on. |
| `RunnerProperties.AnalyticsReportHasNoNotice` | AI-challenge-task-11/WhisperTranscriberApp/Runners/TranscriptionRunner.cs:87-97 | The analytics block never contains an error or cancellation notice. |
| `RunnerProperties.AnalyticsReportShowsTopicsByMentions` | AI-challenge-task-11/WhisperTranscriberApp/Runners/TranscriptionRunner.cs:87-97 | The block is the word count, then the speed. The topic heading and rows appear exactly when there are topics; a null list shows only the counts. There is one row per topic, the rows have non-increasing mentions, and they are a permutation of the extracted topics. |
| `RunnerProperties.TopicRowsAreByMentions` | AI-challenge-task-11/WhisperTranscriberApp/Runners/TranscriptionRunner.cs:93-96 | The shown rows are all topic rows, as many as the topics, in non-increasing order of mentions. |
| `RunnerProperties.SurroundingWhitespaceIgnored` | AI-challenge-task-11/WhisperTranscriberApp/Runners/TranscriptionRunner.cs:44 | Trimming a console line again does not change its command. |
| `RunnerProperties.ExitLineQuits` | AI-challenge-task-11/WhisperTranscriberApp/Runners/TranscriptionRunner.cs:44-46 | A line ends the session exactly when, trimmed, it equals "exit" in any ASCII letter case. |
| `RunnerProperties.SessionCallsAreProcessingCalls` | AI-challenge-task-11/WhisperTranscriberApp/Runners/TranscriptionRunner.cs:41-56 | A session's service calls are exactly those of processing, in turn, the path lines before the first "exit". Help and blank lines call nothing. |
| `RunnerProperties.SessionReadsUpToFirstExit` | AI-challenge-task-11/WhisperTranscriberApp/Runners/TranscriptionRunner.cs:41-56 | The session reads up to and including the first "exit", or every line if there is none. Its last display is a prompt. |
| `RunnerProperties.SessionEndsAtEndOfInput` | AI-challenge-task-11/WhisperTranscriberApp/Runners/TranscriptionRunner.cs:41-56 | Without an "exit" line, the corrected session reads every line and ends after one last prompt. |
| `RunnerProperties.CommandsAppend` | AI-challenge-task-11/WhisperTranscriberApp/Runners/TranscriptionRunner.cs:44 | Lines are classified one at a time: the commands of joined inputs are the joined commands. |
| `RunnerProperties.InteractiveIgnoresAfterExit` | AI-challenge-task-11/WhisperTranscriberApp/Runners/TranscriptionRunner.cs:45-46 | Commands after an "exit" change nothing in the session. |
| `RunnerProperties.LinesAfterExitAreIgnored` | AI-challenge-task-11/WhisperTranscriberApp/Runners/TranscriptionRunner.cs:45-46 | Console lines after an "exit" line are never read: the session over `lines + more` equals the session over `lines`. |
| `Text.TrimCharStripsEnds` | AI-challenge-task-11/WhisperTranscriberApp/Runners/TranscriptionRunner.cs:61 | `Trim('"')` leaves a slice of the input that neither starts nor ends with `"`. Everything cut off on either side is `"`, and trimming again changes nothing. |
| `Text.TrimByIsTrimmed` | AI-challenge-task-11/WhisperTranscriberApp/Runners/TranscriptionRunner.cs:44 | `Trim()` leaves a slice of the input without white space at either end. Everything cut off is white space. |
| `Text.TrimByIdempotent` | AI-challenge-task-11/WhisperTranscriberApp/Services/Summarization/OpenAIGptSummarizer.cs:37 | Trimming twice is the same as trimming once. |
| `Text.IntToStringRoundTrip` | AI-challenge-task-11/WhisperTranscriberApp/Services/Output/MarkdownResultSaver.cs:26 | The decimal form of an integer, with an ASCII '-' for a negative value, reads back as the same integer. |
| `Text.ToLowerInvariant` | AI-challenge-task-11/WhisperTranscriberApp/Services/Transcription/OpenAIWhisperTranscriber.cs:72 | Lower-casing keeps the length and lower-cases each ASCII letter in place. |
| `Paths.GetFileName` | AI-challenge-task-11/WhisperTranscriberApp/Services/Transcription/OpenAIWhisperTranscriber.cs:40 | The uploaded file name has no separator, ends the path, and is preceded by a separator unless it is the whole path. |
| `Paths.ExtensionIsLastDotSuffix` | AI-challenge-task-11/WhisperTranscriberApp/Services/Transcription/OpenAIWhisperTranscriber.cs:72 | The extension ends the path and is a '.' followed by at least one character, with no separator and no further '.'. It is empty only when the file name has no '.' or ends with one. |
| `Paths.GetFileNameWithoutExtension` | AI-challenge-task-11/WhisperTranscriberApp/Services/Output/MarkdownResultSaver.cs:12 | The base name has no directory part and is a prefix of the file name. What remains is empty or a '.' with no further '.'. It is empty exactly when the file name holds no '.'. |
| `Paths.FileNameSplits` | AI-challenge-task-11/WhisperTranscriberApp/Services/Output/MarkdownResultSaver.cs:12 | A file name not ending in '.' is its base name followed by its extension. |
| `Paths.Combine` | AI-challenge-task-11/WhisperTranscriberApp/Services/Output/MarkdownResultSaver.cs:9 | A rooted second part replaces the first. Otherwise the result starts with the first part and ends with the second, with a separator between them. |
| `Http.EnsureSuccessStatusCode` | AI-challenge-task-11/WhisperTranscriberApp/Services/Transcription/OpenAIWhisperTranscriber.cs:45 | The response passes exactly when its status is 2xx, and passes unchanged. Otherwise the call throws with the status-code message. |
| `Options.ConfiguredOr` | AI-challenge-task-11/WhisperTranscriberApp/Services/Transcription/OpenAIWhisperTranscriber.cs:19 | The configured name is used unless null or white space, and the default otherwise. The result is non-blank whenever the default is. |
| `WhisperTranscription.FallbackMimeType` | AI-challenge-task-11/WhisperTranscriberApp/Services/Transcription/OpenAIWhisperTranscriber.cs:73-81 | Every entry of the fallback table, octet-stream included, is a non-empty label starting with 'a'. |
| `WhisperTranscription.GetMimeType` | AI-challenge-task-11/WhisperTranscriberApp/Services/Transcription/OpenAIWhisperTranscriber.cs:52-82 | The chosen label is never blank and never starts with "video/" in any letter case. |
| `WhisperTranscription.LeadingAIsAudioLike` | AI-challenge-task-11/WhisperTranscriberApp/Services/Transcription/OpenAIWhisperTranscriber.cs:64 | A label starting with 'a', such as the rewritten "audio/..." or a table entry, is neither blank nor a video type. |
| `WhisperTranscription.VideoTypeBecomesAudio` | AI-challenge-task-11/WhisperTranscriberApp/Services/Transcription/OpenAIWhisperTranscriber.cs:56-65 | A non-blank provider answer starting with "video/" in any case becomes "audio/" plus the answer without its first six characters, keeping its length. |
| `WhisperTranscription.ProviderTypeKept` | AI-challenge-task-11/WhisperTranscriberApp/Services/Transcription/OpenAIWhisperTranscriber.cs:56-67 | Any other non-blank provider answer is returned unchanged. |
| `WhisperTranscription.FallbackTable` | AI-challenge-task-11/WhisperTranscriberApp/Services/Transcription/OpenAIWhisperTranscriber.cs:72-81 | With no usable provider answer, the lower-cased extension maps to the audio table. Any other extension, including none, maps to application/octet-stream. |
| `WhisperTranscription.FallbackIgnoresCase` | AI-challenge-task-11/WhisperTranscriberApp/Services/Transcription/OpenAIWhisperTranscriber.cs:72 | Extensions that differ only in ASCII letter case get the same fallback label. |
| `WhisperTranscription.ToLowerInvariantIgnoresCase` | AI-challenge-task-11/WhisperTranscriberApp/Services/Transcription/OpenAIWhisperTranscriber.cs:72 | Strings equal up to ASCII case lower-case to the same string. |
| `WhisperTranscription.TranscriptionUpload` | AI-challenge-task-11/WhisperTranscriberApp/Services/Transcription/OpenAIWhisperTranscriber.cs:32-44 | The form posted to the transcriptions URI has two parts. The first is the file, under "file", named by its file name without directory, with a non-blank non-video media type and the bytes read. The second is the model name. |
| `WhisperTranscription.TranscriptIsResponseText` | AI-challenge-task-11/WhisperTranscriberApp/Services/Transcription/OpenAIWhisperTranscriber.cs:47-48 | The endpoint's text is returned unchanged. |
| `WhisperTranscription.NullTextGivesEmptyTranscript` | AI-challenge-task-11/WhisperTranscriberApp/Services/Transcription/OpenAIWhisperTranscriber.cs:48 | A null response, or a null text, gives the empty transcript. |
| `WhisperTranscription.BlankFileNameRefused` | AI-challenge-task-11/WhisperTranscriberApp/Services/Transcription/OpenAIWhisperTranscriber.cs:30-40 | Once the file is open, a file name that is empty or white space fails with the ArgumentException of `MultipartFormDataContent.Add`, whatever the endpoint would answer. |
| `WhisperTranscription.TranscriptionChecksStatusFirst` | AI-challenge-task-11/WhisperTranscriberApp/Services/Transcription/OpenAIWhisperTranscriber.cs:44-47 | A non-success status throws before the body is read. |
| `WhisperTranscription.WhisperTranscriber.constructor` | AI-challenge-task-11/WhisperTranscriberApp/Services/Transcription/OpenAIWhisperTranscriber.cs:16-20 | The model is the configured name unless blank, and "whisper-1" otherwise. It is never blank. |
| `WhisperTranscription.WhisperTranscriber.TranscribeAsync` | AI-challenge-task-11/WhisperTranscriberApp/Services/Transcription/OpenAIWhisperTranscriber.cs:22-49 | BaseAddress becomes https://api.openai.com/ only when it was null, and is kept otherwise. The Authorization header is untouched. The result is that of opening, refusing a blank file name, posting, checking and reading, as `Transcription` states. |
| `WhisperTranscription.WhisperTranscriber.Send` | AI-challenge-task-11/WhisperTranscriberApp/Services/Transcription/OpenAIWhisperTranscriber.cs:30-48 | Opening, the blank-file-name refusal, the post, the status check and the read of the text happen in that order, each failure ending the call, exactly as `Transcription` states for the given base address. |
| `ClientConfiguration.ResolveApiKey` | AI-challenge-task-11/WhisperTranscriberApp/Infrastructure/ServiceCollectionExtensions.cs:29-31 | The configured key unless it is null or white space, and otherwise the OPENAI_API_KEY environment value (null when unset). |
| `ClientConfiguration.NormalizeBaseUrl` | AI-challenge-task-11/WhisperTranscriberApp/Infrastructure/ServiceCollectionExtensions.cs:41 | The normalised URL ends with '/', starts with the URL, and adds at most one character. |
| `ClientConfiguration.NormalizeAddsSlashOnlyWhenMissing` | AI-challenge-task-11/WhisperTranscriberApp/Infrastructure/ServiceCollectionExtensions.cs:41 | A URL ending in '/' is unchanged. Any other URL gets exactly one '/'. |
| `ClientConfiguration.NormalizeBaseUrlIdempotent` | AI-challenge-task-11/WhisperTranscriberApp/Infrastructure/ServiceCollectionExtensions.cs:41 | Normalising twice equals normalising once. |
| `ClientConfiguration.MissingKeyReportedFirst` | AI-challenge-task-11/WhisperTranscriberApp/Infrastructure/ServiceCollectionExtensions.cs:29-35 | With no usable key, even after the environment fallback, the key error is raised whatever the base URL is. |
| `ClientConfiguration.MissingBaseUrlReported` | AI-challenge-task-11/WhisperTranscriberApp/Infrastructure/ServiceCollectionExtensions.cs:36-39 | With a usable key and a blank base URL, the base-URL error is raised. |
| `ClientConfiguration.ConfigureSucceedsExactly` | AI-challenge-task-11/WhisperTranscriberApp/Infrastructure/ServiceCollectionExtensions.cs:26-44 | Configuration succeeds exactly when a key is found, the base URL is non-blank and its normalised form is a URI. The base address is then the normalised URL and the header is Bearer with the resolved, non-blank key. |
| `ClientConfiguration.ConfigureClient` | AI-challenge-task-11/WhisperTranscriberApp/Infrastructure/ServiceCollectionExtensions.cs:26-44 | On success the client's base address and Authorization header are those `Configure` decides. On an exception the client is untouched. |
| `Chat.FirstChoiceMessage` | AI-challenge-task-11/WhisperTranscriberApp/Services/Analytics/OpenAIAnalyticsExtractor.cs:43 | No completion, or an empty choices list, gives null. A message that is returned is the first choice's. |
| `Summarization.NewSummarizer` | AI-challenge-task-11/WhisperTranscriberApp/Services/Summarization/OpenAIGptSummarizer.cs:15-20 | The chat model is the configured one unless blank, and gpt-3.5-turbo otherwise. The temperature is the configured one when present, and 0.7 otherwise. |
| `Summarization.SummaryRequest` | AI-challenge-task-11/WhisperTranscriberApp/Services/Summarization/OpenAIGptSummarizer.cs:24-31 | Exactly two messages, the fixed system message and then a user message, with the summarizer's model and temperature. |
| `Summarization.SummaryRequestCarriesText` | AI-challenge-task-11/WhisperTranscriberApp/Services/Summarization/OpenAIGptSummarizer.cs:29 | The user content is the fixed prefix followed by the text verbatim: the text is recovered from the request. |
| `Summarization.SummarizeChecksStatusFirst` | AI-challenge-task-11/WhisperTranscriberApp/Services/Summarization/OpenAIGptSummarizer.cs:34 | A non-success status throws before the body is parsed. |
| `Summarization.SummaryIsTrimmed` | AI-challenge-task-11/WhisperTranscriberApp/Services/Summarization/OpenAIGptSummarizer.cs:37 | A summary never starts or ends with white space. |
| `Summarization.SummaryIsFirstChoice` | AI-challenge-task-11/WhisperTranscriberApp/Services/Summarization/OpenAIGptSummarizer.cs:37 | The summary is the first choice's content, trimmed. |
| `Summarization.SummaryWithoutChoicesIsEmpty` | AI-challenge-task-11/WhisperTranscriberApp/Services/Summarization/OpenAIGptSummarizer.cs:37 | No completion, or no choices, gives the empty summary. |
| `Summarization.SummarizePropagatesTransportFailure` | AI-challenge-task-11/WhisperTranscriberApp/Services/Summarization/OpenAIGptSummarizer.cs:33 | A cancelled or failed post is passed on unchanged. |
| `AnalyticsExtraction.NewAnalyticsExtractor` | AI-challenge-task-11/WhisperTranscriberApp/Services/Analytics/OpenAIAnalyticsExtractor.cs:14-18 | The chat model is the configured one unless blank, and gpt-3.5-turbo otherwise. |
| `AnalyticsExtraction.ExtractionRequest` | AI-challenge-task-11/WhisperTranscriberApp/Services/Analytics/OpenAIAnalyticsExtractor.cs:22-36 | Two messages, system then user, with temperature 0.2. The user prompt ends with "Transcript:\n" and the transcript. |
| `AnalyticsExtraction.ExtractionRequestCarriesTranscript` | AI-challenge-task-11/WhisperTranscriberApp/Services/Analytics/OpenAIAnalyticsExtractor.cs:23-27 | The transcript is recovered verbatim from the request. |
| `AnalyticsExtraction.ExtractionTemperatureIsFixed` | AI-challenge-task-11/WhisperTranscriberApp/Services/Analytics/OpenAIAnalyticsExtractor.cs:36 | The temperature is 0.2 whatever the options say. |
| `AnalyticsExtraction.SelectedContent` | AI-challenge-task-11/WhisperTranscriberApp/Services/Analytics/OpenAIAnalyticsExtractor.cs:43 | Selection succeeds exactly when the first-choice chain does. Non-empty content is the first choice's content, untrimmed. |
| `AnalyticsExtraction.ExtractChecksStatusFirst` | AI-challenge-task-11/WhisperTranscriberApp/Services/Analytics/OpenAIAnalyticsExtractor.cs:39 | A non-success status throws before any parsing. |
| `AnalyticsExtraction.ParsedContentIsFirstChoice` | AI-challenge-task-11/WhisperTranscriberApp/Services/Analytics/OpenAIAnalyticsExtractor.cs:43 | The first choice's content reaches the parser untrimmed. |
| `AnalyticsExtraction.ParsedContentDefaultsToEmpty` | AI-challenge-task-11/WhisperTranscriberApp/Services/Analytics/OpenAIAnalyticsExtractor.cs:43 | No completion, no choices, or null content, and the parser receives "". |
| `AnalyticsExtraction.ExtractReturnsParsedAnalytics` | AI-challenge-task-11/WhisperTranscriberApp/Services/Analytics/OpenAIAnalyticsExtractor.cs:38-49 | Returned analytics are exactly what the parser produced from the selected content of a successful response. |
| `AnalyticsExtraction.NullAnalyticsIsAnError` | AI-challenge-task-11/WhisperTranscriberApp/Services/Analytics/OpenAIAnalyticsExtractor.cs:44-48 | A null parse result throws the parse-failure error. It never yields empty analytics. |
| `Analytics.OrderByMentionsDescIsSorted` | AI-challenge-task-11/WhisperTranscriberApp/Services/Output/MarkdownResultSaver.cs:29 | The ordered topics have non-increasing mentions. |
| `Analytics.OrderByMentionsDescIsPermutation` | AI-challenge-task-11/WhisperTranscriberApp/Services/Output/MarkdownResultSaver.cs:29 | Ordering rearranges the topics: same multiset, same length. |
| `Analytics.OrderByMentionsDescIsStable` | AI-challenge-task-11/WhisperTranscriberApp/Services/Output/MarkdownResultSaver.cs:29 | Topics with equal mentions keep their input order. |
| `Analytics.OrderByMentionsDescIsCharacterised` | AI-challenge-task-11/WhisperTranscriberApp/Services/Output/MarkdownResultSaver.cs:29 | Any sorted sequence that keeps each tie class in input order is the ordered sequence: the stable descending sort is unique. |
| `Analytics.SortedStableIsUnique` | AI-challenge-task-11/WhisperTranscriberApp/Runners/TranscriptionRunner.cs:93 | Two sorted sequences with the same tie classes are equal. |
| `Analytics.InsertKeepsSorted` | AI-challenge-task-11/WhisperTranscriberApp/Runners/TranscriptionRunner.cs:93 | Inserting a topic before the first one with no more mentions keeps the order non-increasing. |
| `Analytics.InsertIsPermutation` | AI-challenge-task-11/WhisperTranscriberApp/Runners/TranscriptionRunner.cs:93 | Inserting adds exactly the one topic. |
| `Analytics.InsertKeepsTies` | AI-challenge-task-11/WhisperTranscriberApp/Runners/TranscriptionRunner.cs:93 | Inserting puts the topic first among those with its mention count. |
| `Analytics.MapTopicsAt` | AI-challenge-task-11/WhisperTranscriberApp/Runners/TranscriptionRunner.cs:93-96 | One output per topic, the i-th made from the i-th topic. |
| `Analytics.MapTopicsOfOrderIsPermutation` | AI-challenge-task-11/WhisperTranscriberApp/Services/Output/MarkdownResultSaver.cs:29-32 | The lines or rows made from the ordered topics are a permutation of those made from the input topics. |
| `Timestamps.FormatTimestamp` | AI-challenge-task-11/WhisperTranscriberApp/Services/Output/MarkdownResultSaver.cs:13 | "yyyyMMdd_HHmmss" is 15 characters: eight digits, '_', six digits. |
| `Timestamps.FormatTimestampRoundTrip` | AI-challenge-task-11/WhisperTranscriberApp/Services/Output/MarkdownResultSaver.cs:13 | The date and time read back from the formatted timestamp. |
| `Timestamps.FormatTimestampInjective` | AI-challenge-task-11/WhisperTranscriberApp/Services/Output/MarkdownResultSaver.cs:13 | Different seconds give different timestamps. |
| `Timestamps.DaysInMonth` | AI-challenge-task-11/WhisperTranscriberApp/Services/Output/MarkdownResultSaver.cs:13 | A month of the Gregorian calendar that `DateTime.Now` returns has 28 to 31 days, and 29 exactly in February of a leap year. |
| `ResultSaving.FileSystem.constructor` | AI-challenge-task-11/WhisperTranscriberApp/Services/Output/MarkdownResultSaver.cs:7-10 | A file system with the given directories, files and failures, with nothing opened or printed yet. |
| `ResultSaving.FileSystem.CreateDirectory` | AI-challenge-task-11/WhisperTranscriberApp/Services/Output/MarkdownResultSaver.cs:10 | The directory exists afterwards, or the call throws and nothing changes. |
| `ResultSaving.FileSystem.WriteAllText` | AI-challenge-task-11/WhisperTranscriberApp/Services/Output/MarkdownResultSaver.cs:16 | A cancelled token throws before the file is opened. Otherwise the file is opened, and either the open throws or the file holds exactly the text. |
| `ResultSaving.FileSystem.CreateText` | AI-challenge-task-11/WhisperTranscriberApp/Services/Output/MarkdownResultSaver.cs:22 | The StreamWriter's open throws, or the file exists and is empty. |
| `ResultSaving.FileSystem.WriteLine` | AI-challenge-task-11/WhisperTranscriberApp/Services/Output/MarkdownResultSaver.cs:24-31 | Appends the line and a newline to the open file, and changes nothing else. |
| `ResultSaving.FileSystem.PrintLine` | AI-challenge-task-11/WhisperTranscriberApp/Services/Output/MarkdownResultSaver.cs:35-38 | Appends one console line, and changes nothing else. |
| `ResultSaving.SaveAsync` | AI-challenge-task-11/WhisperTranscriberApp/Services/Output/MarkdownResultSaver.cs:7-39 | The outcome and the new disk and console are those of `SaveEffect` on the plan built from the arguments, the clock value and the speed format. |
| `ResultSaving.CarryOut` | AI-challenge-task-11/WhisperTranscriberApp/Services/Output/MarkdownResultSaver.cs:10-38 | Create the directory, write the three files in order, stop at the first exception, then list the paths, as `SaveEffect` states. |
| `ResultSaving.WriteAnalyticsFile` | AI-challenge-task-11/WhisperTranscriberApp/Services/Output/MarkdownResultSaver.cs:22-33 | The analytics file is opened, then holds exactly the header lines followed by the ordered topic lines, each ending in a newline. A null topic list leaves the header lines in the file and fails with the ArgumentNullException message of `OrderByDescending`. |
| `ResultSaving.AppendLines` | AI-challenge-task-11/WhisperTranscriberApp/Services/Output/MarkdownResultSaver.cs:29-32 | After the loop the file holds its old text followed by every line in order, each ending in a newline. Nothing else changes. |
| `ResultSaving.ReportSaved` | AI-challenge-task-11/WhisperTranscriberApp/Services/Output/MarkdownResultSaver.cs:35-38 | Prints "Files saved:" and one bullet per path, transcript first. |
| `ResultSaving.TopicLines` | AI-challenge-task-11/WhisperTranscriberApp/Services/Output/MarkdownResultSaver.cs:29-32 | One `  - {topic}: {mentions}` line per topic, in the topics' order. |
| `ResultSaving.WriteAllStopsAtFirstFailure` | AI-challenge-task-11/WhisperTranscriberApp/Services/Output/MarkdownResultSaver.cs:16-33 | A write sequence succeeds exactly when no write fails. Otherwise its exception is the first failing write's (a cancellation for a token-observing write). Directories and console are untouched. |
| `ResultSaving.WriteAllAppliesPrefix` | AI-challenge-task-11/WhisperTranscriberApp/Services/Output/MarkdownResultSaver.cs:16-33 | The files afterwards are those written by the writes before the first failure: earlier files remain. |
| `ResultSaving.WriteAllAttempts` | AI-challenge-task-11/WhisperTranscriberApp/Services/Output/MarkdownResultSaver.cs:16-33 | The files opened are those before the first failure, then the failing one, unless the token stopped it before opening. |
| `ResultSaving.WriteAllOpens` | AI-challenge-task-11/WhisperTranscriberApp/Services/Output/MarkdownResultSaver.cs:16-33 | Writing appends to the opened-files record exactly the files the writes open until one fails. |
| `ResultSaving.OpenedUpToFirstFailure` | AI-challenge-task-11/WhisperTranscriberApp/Services/Output/MarkdownResultSaver.cs:16-33 | The opened files are the paths before the first failure plus the failing one when it was opened. |
| `ResultSaving.ApplyWritesLookup` | AI-challenge-task-11/WhisperTranscriberApp/Services/Output/MarkdownResultSaver.cs:16-22 | With distinct paths, each written file holds its own text and every other file is kept. |
| `ResultSaving.JoinLinesAppend` | AI-challenge-task-11/WhisperTranscriberApp/Services/Output/MarkdownResultSaver.cs:24-32 | Writing two groups of lines in turn gives the text of writing them all. |
| `ResultSaving.SaveSucceedsExactly` | AI-challenge-task-11/WhisperTranscriberApp/Services/Output/MarkdownResultSaver.cs:7-39 | A save succeeds exactly when the token is not cancelled, neither the directory nor any of the three files fails, and the topic list is not null. |
| `ResultSaving.PlannedFirstFailure` | AI-challenge-task-11/WhisperTranscriberApp/Services/Output/MarkdownResultSaver.cs:16-22 | The writes stop at the transcript when the token is cancelled or its open fails. Otherwise they stop at the summary, then at the analytics file, or complete. |
| `ResultSaving.SaveOpensFilesInOrder` | AI-challenge-task-11/WhisperTranscriberApp/Services/Output/MarkdownResultSaver.cs:15-22 | Files are opened in the order transcript, summary, analytics, as a prefix of that order. All three are opened when the save succeeds. |
| `ResultSaving.SavedFilesHoldDocuments` | AI-challenge-task-11/WhisperTranscriberApp/Services/Output/MarkdownResultSaver.cs:10-38 | When no open fails and the token is not cancelled, the three files hold exactly their documents and every other file is kept. The directory has been added. The save then fails with the ArgumentNullException message exactly when the topic list is null; otherwise it succeeds and the listing is printed. |
| `ResultSaving.FailedSaveReportsNothing` | AI-challenge-task-11/WhisperTranscriberApp/Services/Output/MarkdownResultSaver.cs:16-38 | A failed save prints nothing. A cancelled token opens and writes no file. |
| `ResultSaving.PlannedFileName` | AI-challenge-task-11/WhisperTranscriberApp/Services/Output/MarkdownResultSaver.cs:15 | A planned path lies inside the output directory, and its file name is `{kind}_{base}_{timestamp}.md`. |
| `ResultSaving.PlannedPathNamed` | AI-challenge-task-11/WhisperTranscriberApp/Services/Output/MarkdownResultSaver.cs:9-21 | Each document lies in "Transcripts" under the base directory and is named from its kind, the audio base name and the timestamp. |
| `ResultSaving.PlannedPathsDistinct` | AI-challenge-task-11/WhisperTranscriberApp/Services/Output/MarkdownResultSaver.cs:15-21 | The three documents of one save have distinct paths. |
| `ResultSaving.PlannedPathsIdentifyTime` | AI-challenge-task-11/WhisperTranscriberApp/Services/Output/MarkdownResultSaver.cs:13-21 | The same document of the same audio file at different seconds gets a different path. |
| `ResultSaving.SaveAsyncWritesDocuments` | AI-challenge-task-11/WhisperTranscriberApp/Services/Output/MarkdownResultSaver.cs:15-33 | After success the transcript file holds "# Transcript\n\n" plus the transcript, the summary file "# Summary\n\n" plus the summary, and the analytics file its lines. |
| `ResultSaving.TopicLinesArePermutation` | AI-challenge-task-11/WhisperTranscriberApp/Services/Output/MarkdownResultSaver.cs:29-32 | Each input topic yields exactly one line: the written lines are a permutation of the input's lines. |
| `ResultSaving.AnalyticsDocumentLayout` | AI-challenge-task-11/WhisperTranscriberApp/Services/Output/MarkdownResultSaver.cs:24-32 | The document starts with "# Analytics", a blank line, the word count (which reads back as the count), the speed and "- **Top topics:**". Then comes one line per topic, from most to fewest mentions; a null list adds none. |

## Left out

- I/O is not performed. These become parameters:
  - HTTP transport and `EnsureSuccessStatusCode`'s reason phrase.
  - JSON (de)serialisation.
  - `FileExtensionContentTypeProvider`.
  - `File.Exists` and `File.OpenRead`.
  - Directory and file failures, as a map from paths to exception messages.
  - `DateTime.Now`.
  - The `F2` speed format.
  - The System.Uri constructor.
- The runner keeps the service calls and the displays as two separate sequences, so the relative order of a display and a call (for example that the transcript heading is printed before the summarizer is called) is not stated.
- The cancellation notice goes to `Console.Error`; the model shows it in the same stream as everything else.
- A null element inside the topic list (a `NullReferenceException` from the `Mentions` key selector) is not modelled: the list is either null or a list of topics.
- Console colours, the output encoding, and the exact wording and padding of the banner, help, headings and topic rows are not modelled. The console shows items of the `Display` datatype.
- Floating point: `SpeakingSpeedWpm` and the temperatures are opaque 64-bit patterns. 0.7 and 0.2 are written as their IEEE-754 bits.
- Asynchrony and the cancellation token:
  - Each service call returns `Cancelled` or not, and the token's state is fixed for the duration of a save.
  - The source never checks the token between steps, and the model adds no such check.
  - The transcriber is given no token, but an `OperationCanceledException` it throws is still caught as a cancellation.
- Paths follow Unix rules: '/' is the only separator, there is no validation of invalid characters, and `Combine` takes two parts.
- Text handling:
  - Ignore-case comparison and `ToLowerInvariant` are modelled on ASCII letters only.
  - `EndsWith("/")` is compared ordinally rather than culture-sensitively.
- Text.IntToString: an ASCII '-' is assumed for negative numbers. String interpolation (MarkdownResultSaver.cs:26, :31) uses the current culture's `NegativeSign`, which the model does not carry.
- IntToStringRoundTrip: the round trip is of the ASCII '-' form, for the same reason.
- Timestamps.FormatTimestamp: the Gregorian calendar is assumed. `ToString("yyyyMMdd_HHmmss")` uses the current culture's calendar, so under a culture such as th-TH the year digits differ.
- Text.ToLowerInvariant: does not model case mapping outside ASCII, because the invariant culture's full table is not part of this model.
- ResultSaving.FileSystem.WriteLine: a `StreamWriter` write that throws after the open is not modelled; the only file-system failures are the open and the directory creation.
- The registration methods (`AddOpenAIHttpClients`, `AddWhisperTranscriberApp`), `Program.cs`, `HostBuilderExtensions.cs`, the options records' binding and the root-namespace duplicates of the runner and services are wiring or legacy code. They are not part of this model.
- `OutputOptions` is not modelled, because `MarkdownResultSaver` ignores it and always writes to "Transcripts" under the base directory.
- `ProcessFileAsync` is split into one method per step. The interactive loop classifies every console line up front, as a ghost sequence, to state its specification; the running method still reads one line per pass.
- Runners.Runner.Execute: without an argument, follows the corrected loop, which ends at the end of input, not the code, which prompts forever there (see Findings). The loop as written is `Runners.IterateAsWritten`; `RunnerProperties.AsWrittenAgreesUpToExit` shows the two agree on input that holds an "exit" line.
- Runners.Runner.Interact: follows the corrected loop, as `Runners.Runner.Execute` does.
- Runners.Runner.Iteration: stops at the end of input, as the corrected loop does; the loop as written goes on reading "".
- Runners.Interactive: ends at the end of input, as corrected.
- Runners.ConsoleSession: the corrected session over the console lines.
- Where the program's own documentation and its code differ, the model follows the code:
  - `OutputOptions.Directory` is documented as the configurable output directory (Options/OutputOptions.cs:10-15). The saver ignores it and always writes to "Transcripts" under the base directory.
  - `Temperature` is documented as the temperature of every chat completion, with each call falling back to its own default only when it is null (Options/OpenAIOptions.cs:14-17). The extractor always sends 0.2, whatever the options say.
- A null choices list makes the summarizer and the extractor throw, as the code does, because `FirstOrDefault` is called on a null source. Neither returns empty content in that case.

## Findings

| source | as written | input that shows it | evidently intended | confidence | as-written member | corrected member |
|---|---|---|---|---|---|---|
| AI-challenge-task-11/WhisperTranscriberApp/Runners/TranscriptionRunner.cs:41-53 | At the end of input `Console.ReadLine()` returns null. `?? string.Empty` turns it into "", which counts as blank, so the loop prompts and reads again forever. | Console input that ends without an "exit" line, for example an empty input stream or a piped file of paths. | The session ends at the end of input, after the lines have been processed. | not executed | `Runners.AsWrittenSpinsAtEndOfInput` | `RunnerProperties.SessionEndsAtEndOfInput` |
