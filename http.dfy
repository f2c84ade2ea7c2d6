/** The parts of System.Net.Http that the services touch. */
module Http {
  import opened Outcomes
  import opened Text

  /** An Authorization header value: scheme and parameter. */
  datatype AuthenticationHeader = AuthenticationHeader(scheme: string, parameter: string)

  /** The HttpClient state that the core reads and writes. */
  class HttpClient {
    var baseAddress: Option<string>
    var authorization: Option<AuthenticationHeader>

    constructor ()
      ensures baseAddress == None && authorization == None
    {
      baseAddress := None;
      authorization := None;
    }
  }

  /** What a transport call returns when it does not throw. */
  datatype HttpResponse = HttpResponse(statusCode: int, body: string) {
    /** HttpResponseMessage.IsSuccessStatusCode: a 2xx status. */
    predicate IsSuccess() {
      200 <= statusCode <= 299
    }
  }

  /** The exception message of EnsureSuccessStatusCode (the reason phrase is left out). */
  function StatusErrorMessage(statusCode: int): string {
    "Response status code does not indicate success: " + IntToString(statusCode) + "."
  }

  /** HttpResponseMessage.EnsureSuccessStatusCode: throws on a non-2xx status. */
  function EnsureSuccessStatusCode(response: HttpResponse): (r: Outcome<HttpResponse>)
    ensures r.Ok? <==> response.IsSuccess()
    ensures r.Ok? ==> r.value == response
    ensures !r.Ok? ==> r == Error(StatusErrorMessage(response.statusCode))
  {
    if response.IsSuccess() then Ok(response) else Error(StatusErrorMessage(response.statusCode))
  }
}
