/**
 * OpenAIWhisperTranscriber: the media-type label chosen for the upload, the
 * model-name default, the BaseAddress default, and the transcription call.
 */
module WhisperTranscription {
  import opened Outcomes
  import opened Text
  import opened Paths
  import opened Options
  import opened Http

  const DefaultWhisperModel: string := "whisper-1"
  const DefaultBaseAddress: string := "https://api.openai.com/"
  const TranscriptionsUri: string := "v1/audio/transcriptions"
  const OctetStream: string := "application/octet-stream"

  /** The ArgumentException MultipartFormDataContent.Add throws for a blank file name. */
  const BlankFileNameMessage: string := "The value cannot be an empty string or composed entirely of whitespace. (Parameter 'fileName')"

  /** FileExtensionContentTypeProvider.TryGetContentType: an uninterpreted partial function of the path. */
  type ContentTypeLookup = string -> Option<string>

  /** The switch on the lower-cased extension used when the provider has no usable answer. */
  function FallbackMimeType(ext: string): (r: string)
    ensures |r| > 0 && r[0] == 'a'
  {
    if ext == ".flac" then "audio/flac"
    else if ext == ".m4a" then "audio/mp4"
    else if ext == ".ogg" || ext == ".oga" then "audio/ogg"
    else if ext == ".aac" then "audio/aac"
    else if ext == ".webm" then "audio/webm"
    else OctetStream
  }

  /**
   * GetMimeType: the provider's answer when it is non-blank, with a video/
   * prefix (in any case) rewritten to audio/; otherwise the fallback table.
   * The label is never blank and never a video/ type.
   */
  function GetMimeType(lookup: ContentTypeLookup, path: string): (r: string)
    ensures !IsBlank(r)
    ensures !StartsWithIgnoreCase(r, "video/")
  {
    var found := lookup(path);
    if found.Some? && !IsBlank(found.value) then
      var mimeType := found.value;
      if StartsWithIgnoreCase(mimeType, "video/") then
        var r := "audio/" + mimeType[6..];
        LeadingAIsAudioLike(r);
        r
      else mimeType
    else
      var r := FallbackMimeType(ToLowerInvariant(GetExtension(path)));
      LeadingAIsAudioLike(r);
      r
  }

  lemma LeadingAIsAudioLike(r: string)
    requires |r| > 0 && r[0] == 'a'
    ensures !IsBlank(r) && !StartsWithIgnoreCase(r, "video/")
  {
    assert !IsWhiteSpace(r[0]);
    if |r| >= 6 {
      assert AsciiLower(r[..6][0]) != AsciiLower("video/"[0]);
    }
  }

  /** A non-blank video/ answer becomes audio/ followed by everything after its first six characters. */
  lemma VideoTypeBecomesAudio(lookup: ContentTypeLookup, path: string)
    requires lookup(path).Some? && !IsBlank(lookup(path).value)
    requires StartsWithIgnoreCase(lookup(path).value, "video/")
    ensures GetMimeType(lookup, path) == "audio/" + lookup(path).value[6..]
    ensures |GetMimeType(lookup, path)| == |lookup(path).value|
  {
  }

  /** Any other non-blank answer of the provider is used as it is. */
  lemma ProviderTypeKept(lookup: ContentTypeLookup, path: string)
    requires lookup(path).Some? && !IsBlank(lookup(path).value)
    requires !StartsWithIgnoreCase(lookup(path).value, "video/")
    ensures GetMimeType(lookup, path) == lookup(path).value
  {
  }

  lemma ToLowerInvariantIgnoresCase(a: string, b: string)
    requires EqualsIgnoreCase(a, b)
    ensures ToLowerInvariant(a) == ToLowerInvariant(b)
  {
  }

  /**
   * When the provider fails or answers blank, the extension decides, in any
   * letter case: the audio table, and application/octet-stream for anything
   * else, including no extension at all.
   */
  lemma FallbackTable(lookup: ContentTypeLookup, path: string)
    requires lookup(path).None? || IsBlank(lookup(path).value)
    ensures var ext := ToLowerInvariant(GetExtension(path)); var r := GetMimeType(lookup, path);
      (ext == ".flac" ==> r == "audio/flac") && (ext == ".m4a" ==> r == "audio/mp4")
      && (ext == ".ogg" ==> r == "audio/ogg") && (ext == ".oga" ==> r == "audio/ogg")
      && (ext == ".aac" ==> r == "audio/aac") && (ext == ".webm" ==> r == "audio/webm")
      && (ext !in {".flac", ".m4a", ".ogg", ".oga", ".aac", ".webm"} ==> r == OctetStream)
    ensures GetExtension(path) == [] ==> GetMimeType(lookup, path) == OctetStream
  {
  }

  /** Two paths whose extensions differ only in letter case get the same fallback label. */
  lemma FallbackIgnoresCase(lookup: ContentTypeLookup, p: string, q: string)
    requires lookup(p).None? || IsBlank(lookup(p).value)
    requires lookup(q).None? || IsBlank(lookup(q).value)
    requires EqualsIgnoreCase(GetExtension(p), GetExtension(q))
    ensures GetMimeType(lookup, p) == GetMimeType(lookup, q)
  {
    ToLowerInvariantIgnoresCase(GetExtension(p), GetExtension(q));
  }

  /** One part of the multipart form. */
  datatype Part =
    | FilePart(name: string, fileName: string, contentType: string, content: seq<bv8>)
    | StringPart(name: string, value: string)

  /** A multipart POST: base address, relative URI and the form parts in order. */
  datatype Upload = Upload(baseAddress: string, requestUri: string, parts: seq<Part>)

  /** The transcription endpoint's JSON; its text may be null. */
  datatype WhisperResponse = WhisperResponse(text: Option<string>)

  /** Everything TranscribeAsync reaches outside itself. */
  datatype TranscriptionIo = TranscriptionIo(
    lookup: ContentTypeLookup,
    openRead: string -> Outcome<seq<bv8>>,
    post: Upload -> Outcome<HttpResponse>,
    parse: string -> Outcome<Option<WhisperResponse>>)

  /** The form TranscribeAsync builds: the file (named "file") and then the model name. */
  function TranscriptionUpload(baseAddress: string, model: string, filePath: string,
                               lookup: ContentTypeLookup, content: seq<bv8>): (u: Upload)
    ensures u.requestUri == TranscriptionsUri && |u.parts| == 2
    ensures u.parts[0].FilePart? && u.parts[0].name == "file" && u.parts[0].content == content
    ensures u.parts[0].fileName == GetFileName(filePath) && Separator !in u.parts[0].fileName
    ensures !IsBlank(u.parts[0].contentType) && !StartsWithIgnoreCase(u.parts[0].contentType, "video/")
    ensures u.parts[1] == StringPart("model", model)
  {
    Upload(baseAddress, TranscriptionsUri,
      [FilePart("file", GetFileName(filePath), GetMimeType(lookup, filePath), content), StringPart("model", model)])
  }

  /** `transcription?.Text ?? string.Empty`. */
  function TextOrEmpty(response: Option<WhisperResponse>): string {
    if response.Some? && response.value.text.Some? then response.value.text.value else ""
  }

  /**
   * What TranscribeAsync returns once the base address is settled: the file
   * is opened, a blank file name is refused when the form is built, and only
   * then is the form posted.
   */
  function Transcription(io: TranscriptionIo, baseAddress: string, model: string, filePath: string): Outcome<string> {
    var content :- io.openRead(filePath);
    if IsBlank(GetFileName(filePath)) then Error(BlankFileNameMessage)
    else
      var response :- io.post(TranscriptionUpload(baseAddress, model, filePath, io.lookup, content));
      var checked :- EnsureSuccessStatusCode(response);
      var parsed :- io.parse(checked.body);
      Ok(TextOrEmpty(parsed))
  }

  /** An opened file whose name is blank or white space is refused, whatever the endpoint would answer. */
  lemma BlankFileNameRefused(io: TranscriptionIo, baseAddress: string, model: string, filePath: string)
    requires io.openRead(filePath).Ok? && IsBlank(GetFileName(filePath))
    ensures Transcription(io, baseAddress, model, filePath) == Error(BlankFileNameMessage)
  {
  }

  /** The endpoint's text is returned exactly as it came. */
  lemma TranscriptIsResponseText(io: TranscriptionIo, baseAddress: string, model: string, filePath: string, text: string)
    requires io.openRead(filePath).Ok? && !IsBlank(GetFileName(filePath))
    requires var response := io.post(TranscriptionUpload(baseAddress, model, filePath, io.lookup, io.openRead(filePath).value));
      response.Ok? && response.value.IsSuccess() && io.parse(response.value.body) == Ok(Some(WhisperResponse(Some(text))))
    ensures Transcription(io, baseAddress, model, filePath) == Ok(text)
  {
  }

  /** A null response, or a response whose text is null, gives the empty transcript. */
  lemma NullTextGivesEmptyTranscript(io: TranscriptionIo, baseAddress: string, model: string, filePath: string)
    requires io.openRead(filePath).Ok? && !IsBlank(GetFileName(filePath))
    requires var response := io.post(TranscriptionUpload(baseAddress, model, filePath, io.lookup, io.openRead(filePath).value));
      response.Ok? && response.value.IsSuccess()
      && (io.parse(response.value.body) == Ok(None) || io.parse(response.value.body) == Ok(Some(WhisperResponse(None))))
    ensures Transcription(io, baseAddress, model, filePath) == Ok("")
  {
  }

  /** A non-success status fails the call before the body is read. */
  lemma TranscriptionChecksStatusFirst(io: TranscriptionIo, baseAddress: string, model: string, filePath: string)
    requires io.openRead(filePath).Ok? && !IsBlank(GetFileName(filePath))
    requires var response := io.post(TranscriptionUpload(baseAddress, model, filePath, io.lookup, io.openRead(filePath).value));
      response.Ok? && !response.value.IsSuccess()
    ensures Transcription(io, baseAddress, model, filePath)
         == Error(StatusErrorMessage(io.post(TranscriptionUpload(baseAddress, model, filePath, io.lookup, io.openRead(filePath).value)).value.statusCode))
  {
  }

  /** The transcriber: its HttpClient and the Whisper model name. */
  class WhisperTranscriber {
    const httpClient: HttpClient
    const model: string

    /** The model name is the configured one unless blank, else whisper-1. */
    constructor (httpClient: HttpClient, options: OpenAIOptions)
      ensures this.httpClient == httpClient
      ensures !IsBlank(model)
      ensures !IsNullOrWhiteSpace(options.whisperModel) ==> Some(model) == options.whisperModel
      ensures IsNullOrWhiteSpace(options.whisperModel) ==> model == DefaultWhisperModel
    {
      assert !IsWhiteSpace(DefaultWhisperModel[0]);
      this.httpClient := httpClient;
      this.model := ConfiguredOr(options.whisperModel, DefaultWhisperModel);
    }

    /**
     * TranscribeAsync: installs the default base address only when none is
     * set, then sends the file.
     */
    method TranscribeAsync(filePath: string, io: TranscriptionIo) returns (r: Outcome<string>)
      modifies httpClient
      ensures httpClient.baseAddress
           == if old(httpClient.baseAddress).None? then Some(DefaultBaseAddress) else old(httpClient.baseAddress)
      ensures httpClient.authorization == old(httpClient.authorization)
      ensures r == Transcription(io, httpClient.baseAddress.value, model, filePath)
    {
      if httpClient.baseAddress.None? {
        httpClient.baseAddress := Some(DefaultBaseAddress);
      }
      r := Send(httpClient.baseAddress.value, filePath, io);
    }

    /**
     * The rest of TranscribeAsync: opens the file, builds the form (refusing
     * a blank file name), posts it and reads the text.
     */
    method Send(baseAddress: string, filePath: string, io: TranscriptionIo) returns (r: Outcome<string>)
      ensures r == Transcription(io, baseAddress, model, filePath)
    {
      var stream := io.openRead(filePath);
      if !stream.Ok? {
        return stream.PropagateFailure();
      }
      var parts: seq<Part> := [];
      if IsBlank(GetFileName(filePath)) {
        return Error(BlankFileNameMessage);
      }
      parts := parts + [FilePart("file", GetFileName(filePath), GetMimeType(io.lookup, filePath), stream.value)];
      parts := parts + [StringPart("model", model)];
      var upload := Upload(baseAddress, TranscriptionsUri, parts);
      assert upload == TranscriptionUpload(baseAddress, model, filePath, io.lookup, stream.value);
      var response := io.post(upload);
      if !response.Ok? {
        return response.PropagateFailure();
      }
      if !response.value.IsSuccess() {
        return Error(StatusErrorMessage(response.value.statusCode));
      }
      var parsed := io.parse(response.value.body);
      if !parsed.Ok? {
        return parsed.PropagateFailure();
      }
      r := Ok(TextOrEmpty(parsed.value));
    }
  }
}
