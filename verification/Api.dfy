/**
 * The HTTP client's error handling (frontend/lib/api.ts): `fetchMeetings`
 * turns any failure into an Error with one of three messages;
 * `createMeeting` rethrows whatever it caught.
 */
module Api {
  import opened Wrappers
  import opened JsText

  datatype HttpResponse = HttpResponse(status: nat)

  /** A failed request: an axios error with its optional code and response, or any other thrown value. */
  datatype HttpError = AxiosError(code: Option<string>, response: Option<HttpResponse>) | OtherFailure

  /** A thrown value as a catch block sees it: an `Error` with its message, or something else. */
  datatype Thrown = ErrorObject(message: string) | NonError

  const NetworkErrorMessage: string := "无法连接到服务器，请检查网络连接或稍后重试。"
  const UnexpectedErrorMessage: string := "发生意外错误，请稍后重试。"

  function ServerErrorMessage(status: nat): string {
    "服务器错误: " + NatToString(status)
  }

  predicate IsNetworkError(e: HttpError) {
    e.AxiosError? && e.code == Some("ERR_NETWORK")
  }

  /**
   * The message for a failed fetch: the network message for an axios error
   * with code ERR_NETWORK (whether or not it has a response), the server
   * message with the status for any other axios error with a response, and the
   * generic message otherwise.
   */
  function FetchErrorMessage(e: HttpError): (message: string)
    ensures IsNetworkError(e) ==> message == NetworkErrorMessage
    ensures !IsNetworkError(e) && e.AxiosError? && e.response.Some? ==> message == ServerErrorMessage(e.response.value.status)
    ensures !IsNetworkError(e) && !(e.AxiosError? && e.response.Some?) ==> message == UnexpectedErrorMessage
  {
    match e
    case AxiosError(code, response) =>
      if code == Some("ERR_NETWORK") then NetworkErrorMessage
      else if response.Some? then ServerErrorMessage(response.value.status)
      else UnexpectedErrorMessage
    case OtherFailure => UnexpectedErrorMessage
  }

  /** `fetchMeetings`: the response data unchanged on success, otherwise an Error carrying the classified message. */
  function FetchMeetings<T>(outcome: Result<T, HttpError>): (r: Result<T, Thrown>)
    ensures outcome.Success? ==> r == Success(outcome.value)
    ensures outcome.Failure? ==> r.Failure? && r.error.ErrorObject? && r.error.message == FetchErrorMessage(outcome.error)
  {
    match outcome
    case Success(data) => Success(data)
    case Failure(e) => Failure(ErrorObject(FetchErrorMessage(e)))
  }

  /** `createMeeting`: the created meeting on success; on failure the caught error is rethrown as it was. */
  function CreateMeeting<T, E>(outcome: Result<T, E>): (r: Result<T, E>)
    ensures r.Success? <==> outcome.Success?
    ensures r.Success? ==> r.value == outcome.value
    ensures r.Failure? ==> r.error == outcome.error
  {
    match outcome
    case Success(data) => Success(data)
    case Failure(e) => Failure(e)
  }

  /** An HTTP 500 reads "服务器错误: 500". */
  lemma ServerError500()
    ensures FetchErrorMessage(AxiosError(None, Some(HttpResponse(500)))) == "服务器错误: 500"
  {
    assert NatToString(500) == "500" by {
      assert NatToString(5) == "5";
      assert NatToString(50) == "50";
    }
  }

  /**
   * The three kinds of message never collide, and two server messages are equal
   * only for equal statuses: a message identifies its failure class.
   */
  lemma MessagesDistinguishFailures(a: nat, b: nat)
    ensures ServerErrorMessage(a) != NetworkErrorMessage && ServerErrorMessage(a) != UnexpectedErrorMessage
    ensures NetworkErrorMessage != UnexpectedErrorMessage
    ensures ServerErrorMessage(a) == ServerErrorMessage(b) ==> a == b
  {
    var prefix := "服务器错误: ";
    assert ServerErrorMessage(a)[..|prefix|] == prefix;
    assert NetworkErrorMessage[0] != prefix[0];
    assert UnexpectedErrorMessage[0] != prefix[0];
    if ServerErrorMessage(a) == ServerErrorMessage(b) {
      assert NatToString(a) == ServerErrorMessage(a)[|prefix|..];
      assert NatToString(b) == ServerErrorMessage(b)[|prefix|..];
      NatToStringInjective(a, b);
    }
  }
}
