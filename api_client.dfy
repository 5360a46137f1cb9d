/** The client's HTTP wrapper (frontend/src/api/api.ts): the status-to-message
    mapper, the response interceptor that turns every failure into a plain
    Error carrying that message, and the request interceptor that adds the
    bearer header from the stored token. */
module ApiClient {
  import opened Text
  import Browser

  /** An axios failure: a response with its status and the server's `message`
      (if its body has one), a request that got no response, or a request
      that could not be set up. */
  datatype AxiosError =
    | HasResponse(status: nat, serverMessage: Option<string>)
    | NoResponse
    | SetupFailed(message: string)

  const InvalidCredentialsText: string := "Invalid email or password. Please try again."
  const ForbiddenText: string := "Access denied. You don\U{2019}t have permission to perform this action."
  const NotFoundText: string := "Requested resource not found. Please try again later."
  const TimeoutText: string := "Request timed out. Please check your internet connection."
  const TooManyRequestsText: string := "Too many requests. Please wait a moment before retrying."
  const ServerErrorText: string := "Internal server error. Please try again after some time."
  const UnavailableText: string := "Service temporarily unavailable. Please try again later."
  const NetworkText: string := "Unable to reach the server. Please check your network connection."

  /** The switch's fixed cases. */
  function FixedMessage(status: nat): (m: Option<string>)
    ensures m.Some? <==> status in {400, 401, 403, 404, 408, 429, 500, 503}
  {
    if status == 400 || status == 401 then Some(InvalidCredentialsText)
    else if status == 403 then Some(ForbiddenText)
    else if status == 404 then Some(NotFoundText)
    else if status == 408 then Some(TimeoutText)
    else if status == 429 then Some(TooManyRequestsText)
    else if status == 500 then Some(ServerErrorText)
    else if status == 503 then Some(UnavailableText)
    else None
  }

  /** The default case: `Unexpected error occurred (code: ${status}).` */
  function UnexpectedText(status: nat): string {
    "Unexpected error occurred (code: " + Show(status) + ")."
  }

  /** getErrorMessage. */
  function GetErrorMessage(e: AxiosError): (m: string)
    ensures e.HasResponse? && FixedMessage(e.status).Some? ==> m == FixedMessage(e.status).value
    ensures e.HasResponse? && FixedMessage(e.status).None? ==>
      m == (if e.serverMessage.Some? && e.serverMessage.value != "" then e.serverMessage.value
            else UnexpectedText(e.status))
    ensures e.NoResponse? ==> m == NetworkText
    ensures e.SetupFailed? ==> m == "Request setup failed: " + e.message
  {
    match e
    case HasResponse(status, serverMessage) =>
      if FixedMessage(status).Some? then FixedMessage(status).value
      else if serverMessage.Some? && serverMessage.value != "" then serverMessage.value
      else UnexpectedText(status)
    case NoResponse => NetworkText
    case SetupFailed(message) => "Request setup failed: " + message
  }

  /** 400 and 401 are not told apart; the other fixed statuses each get their own text. */
  lemma FixedMessagesDistinct(s1: nat, s2: nat)
    requires FixedMessage(s1).Some? && FixedMessage(s2).Some?
    ensures FixedMessage(s1) == FixedMessage(s2) <==> s1 == s2 || (s1 in {400, 401} && s2 in {400, 401})
  {
  }

  /** The default text names the status: two different unexpected statuses
      never read the same. */
  lemma UnexpectedTextNamesStatus(s1: nat, s2: nat)
    ensures UnexpectedText(s1) == UnexpectedText(s2) <==> s1 == s2
  {
    var head := "Unexpected error occurred (code: ";
    if UnexpectedText(s1) == UnexpectedText(s2) {
      var t1, t2 := Show(s1) + ").", Show(s2) + ").";
      assert UnexpectedText(s1) == head + t1 && UnexpectedText(s2) == head + t2;
      assert t1 == UnexpectedText(s1)[|head|..] == UnexpectedText(s2)[|head|..] == t2;
      assert Show(s1) == t1[..|t1| - 2] && Show(s2) == t2[..|t2| - 2];
      ShowInjective(s1, s2);
    }
  }

  /** What `await api.x(...)` throws: the response interceptor rejects every
      axios failure with `new Error(getErrorMessage(error))`, a plain Error
      that has a message and neither `response` nor `request`. */
  datatype Thrown = PlainError(message: string)

  function ResponseInterceptor(e: AxiosError): (t: Thrown)
    ensures t.message == GetErrorMessage(e)
  {
    PlainError(GetErrorMessage(e))
  }

  /** What a page's catch block can see of the value it caught: the
      `response` (its status and `data.message`, if any) and whether there is
      a `request`. */
  datatype Caught = Caught(response: Option<(nat, Option<string>)>, request: bool)

  /** The view of an axios error: one that got a response also has a request. */
  function FromAxios(e: AxiosError): (c: Caught)
    ensures c.response.Some? <==> e.HasResponse?
    ensures e.HasResponse? ==> c.response.value == (e.status, e.serverMessage)
    ensures c.request <==> !e.SetupFailed?
  {
    match e
    case HasResponse(status, serverMessage) => Caught(Some((status, serverMessage)), true)
    case NoResponse => Caught(None, true)
    case SetupFailed(_) => Caught(None, false)
  }

  /** The view of what `await api.x(...)` throws: a plain Error has neither
      `response` nor `request`. */
  function FromThrown(t: Thrown): (c: Caught)
    ensures c.response.None? && !c.request
  {
    match t
    case PlainError(_) => Caught(None, false)
  }

  /** The header value the request interceptor builds from a stored token. */
  function BearerHeader(token: string): (h: string)
    ensures |h| == |token| + 7 && h[..7] == "Bearer " && h[7..] == token
  {
    "Bearer " + token
  }

  /** The request config's headers; an absent headers object is the empty map. */
  class RequestConfig {
    var headers: map<string, string>

    constructor (headers: map<string, string>)
      ensures this.headers == headers
    {
      this.headers := headers;
    }
  }

  /** The request interceptor: with a non-empty stored token the
      Authorization header is set to "Bearer <token>"; otherwise the headers
      are left as they are. */
  method InterceptRequest(config: RequestConfig, storage: Browser.LocalStorage)
    modifies config
    ensures var token := storage.GetItem("token");
      if token.Some? && token.value != "" then
        config.headers == old(config.headers)["Authorization" := BearerHeader(token.value)]
      else config.headers == old(config.headers)
  {
    var token := storage.GetItem("token");
    if token.Some? && token.value != "" {
      config.headers := config.headers["Authorization" := BearerHeader(token.value)];
    }
  }
}
