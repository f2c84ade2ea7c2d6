/** The "OpenAI" configuration section and how services pick a configured value or a default. */
module Options {
  import opened Outcomes
  import opened Text
  import opened Analytics

  /** OpenAIOptions: every setting may be absent (null). */
  datatype OpenAIOptions = OpenAIOptions(
    baseUrl: Option<string>,
    apiKey: Option<string>,
    whisperModel: Option<string>,
    chatModel: Option<string>,
    temperature: Option<Double>)

  /**
   * `string.IsNullOrWhiteSpace(configured) ? fallback : configured!`, the
   * pattern every service constructor uses to choose its model name.
   */
  function ConfiguredOr(configured: Option<string>, fallback: string): (r: string)
    ensures !IsNullOrWhiteSpace(configured) ==> Some(r) == configured
    ensures IsNullOrWhiteSpace(configured) ==> r == fallback
    ensures !IsBlank(fallback) ==> !IsBlank(r)
  {
    if IsNullOrWhiteSpace(configured) then fallback else configured.value
  }
}
