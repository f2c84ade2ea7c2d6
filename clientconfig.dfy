/**
 * ServiceCollectionExtensions.ConfigureClient: the API key falls back to the
 * OPENAI_API_KEY environment variable, the key and then the base URL must be
 * non-blank, and the base URL is given a trailing '/'.
 */
module ClientConfiguration {
  import opened Outcomes
  import opened Text
  import opened Options
  import opened Http

  const ApiKeyVariable: string := "OPENAI_API_KEY"
  const MissingApiKeyMessage: string := "OpenAI API key not configured."
  const MissingBaseUrlMessage: string := "OpenAI BaseUrl not configured."
  const InvalidUriMessage: string := "Invalid URI: The format of the URI could not be determined."

  /** Environment.GetEnvironmentVariable: null when the variable is not set. */
  function GetEnvironmentVariable(env: map<string, string>, name: string): Option<string> {
    if name in env then Some(env[name]) else None
  }

  /** The configured key unless it is blank, otherwise the environment's. */
  function ResolveApiKey(options: OpenAIOptions, env: map<string, string>): (key: Option<string>)
    ensures !IsNullOrWhiteSpace(options.apiKey) ==> key == options.apiKey
    ensures IsNullOrWhiteSpace(options.apiKey) ==> key == GetEnvironmentVariable(env, ApiKeyVariable)
  {
    if IsNullOrWhiteSpace(options.apiKey) then GetEnvironmentVariable(env, ApiKeyVariable) else options.apiKey
  }

  /** `url.EndsWith("/") ? url : url + "/"`. */
  function NormalizeBaseUrl(url: string): (r: string)
    ensures EndsWith(r, "/")
    ensures url <= r && |r| <= |url| + 1
  {
    if EndsWith(url, "/") then url else url + "/"
  }

  /** A URL that already ends in '/' is left alone; otherwise exactly one '/' is added. */
  lemma NormalizeAddsSlashOnlyWhenMissing(url: string)
    ensures EndsWith(url, "/") ==> NormalizeBaseUrl(url) == url
    ensures !EndsWith(url, "/") ==> NormalizeBaseUrl(url) == url + "/"
  {
  }

  /** Normalising twice is the same as normalising once. */
  lemma NormalizeBaseUrlIdempotent(url: string)
    ensures NormalizeBaseUrl(NormalizeBaseUrl(url)) == NormalizeBaseUrl(url)
  {
  }

  /** The settings a successful ConfigureClient leaves on the client. */
  datatype ClientSettings = ClientSettings(baseAddress: string, authorization: AuthenticationHeader)

  /**
   * The decision ConfigureClient makes: which exception it throws, or which
   * base address and Authorization header it installs. `isAbsoluteUri` stands
   * for the System.Uri constructor accepting the string.
   */
  function Configure(options: OpenAIOptions, env: map<string, string>, isAbsoluteUri: string -> bool): Outcome<ClientSettings> {
    var apiKey := ResolveApiKey(options, env);
    if IsNullOrWhiteSpace(apiKey) then Error(MissingApiKeyMessage)
    else if IsNullOrWhiteSpace(options.baseUrl) then Error(MissingBaseUrlMessage)
    else
      var baseUrl := NormalizeBaseUrl(options.baseUrl.value);
      if !isAbsoluteUri(baseUrl) then Error(InvalidUriMessage)
      else Ok(ClientSettings(baseUrl, AuthenticationHeader("Bearer", apiKey.value)))
  }

  /** The key is checked first: a missing key is reported whatever the base URL is. */
  lemma MissingKeyReportedFirst(options: OpenAIOptions, env: map<string, string>, isAbsoluteUri: string -> bool)
    requires IsNullOrWhiteSpace(options.apiKey)
    requires IsNullOrWhiteSpace(GetEnvironmentVariable(env, ApiKeyVariable))
    ensures Configure(options, env, isAbsoluteUri) == Error(MissingApiKeyMessage)
  {
  }

  /** With a usable key, a blank base URL is the error. */
  lemma MissingBaseUrlReported(options: OpenAIOptions, env: map<string, string>, isAbsoluteUri: string -> bool)
    requires !IsNullOrWhiteSpace(ResolveApiKey(options, env))
    requires IsNullOrWhiteSpace(options.baseUrl)
    ensures Configure(options, env, isAbsoluteUri) == Error(MissingBaseUrlMessage)
  {
  }

  /**
   * Success exactly when a key is found, the base URL is non-blank and its
   * normalised form is a valid URI; then the base address is the normalised
   * URL (ending in '/') and the header is Bearer with the resolved key.
   */
  lemma ConfigureSucceedsExactly(options: OpenAIOptions, env: map<string, string>, isAbsoluteUri: string -> bool)
    ensures var r := Configure(options, env, isAbsoluteUri);
      r.Ok? <==> !IsNullOrWhiteSpace(ResolveApiKey(options, env)) && !IsNullOrWhiteSpace(options.baseUrl)
                 && isAbsoluteUri(NormalizeBaseUrl(options.baseUrl.value))
    ensures var r := Configure(options, env, isAbsoluteUri);
      r.Ok? ==> r.value.baseAddress == NormalizeBaseUrl(options.baseUrl.value) && EndsWith(r.value.baseAddress, "/")
                && r.value.authorization == AuthenticationHeader("Bearer", ResolveApiKey(options, env).value)
                && !IsBlank(r.value.authorization.parameter)
  {
  }

  /**
   * ConfigureClient: validates, then sets BaseAddress and the Authorization
   * header. When it throws, the client is left as it was.
   */
  method ConfigureClient(options: OpenAIOptions, env: map<string, string>, isAbsoluteUri: string -> bool,
                         client: HttpClient) returns (r: Outcome<()>)
    modifies client
    ensures var c := Configure(options, env, isAbsoluteUri);
      if c.Ok? then r == Ok(()) && client.baseAddress == Some(c.value.baseAddress)
                    && client.authorization == Some(c.value.authorization)
      else r == c.PropagateFailure() && unchanged(client)
  {
    var apiKey := if IsNullOrWhiteSpace(options.apiKey)
      then GetEnvironmentVariable(env, ApiKeyVariable)
      else options.apiKey;
    if IsNullOrWhiteSpace(apiKey) {
      return Error(MissingApiKeyMessage);
    }
    if IsNullOrWhiteSpace(options.baseUrl) {
      return Error(MissingBaseUrlMessage);
    }
    var baseUrl := if EndsWith(options.baseUrl.value, "/") then options.baseUrl.value else options.baseUrl.value + "/";
    if !isAbsoluteUri(baseUrl) {
      return Error(InvalidUriMessage);
    }
    client.baseAddress := Some(baseUrl);
    client.authorization := Some(AuthenticationHeader("Bearer", apiKey.value));
    return Ok(());
  }
}
