/**
 * The authenticated fetch wrapper: merges a JSON content-type default under
 * the caller's headers, hands the request to `fetch`, and on a 401 navigates to
 * the sign-in page while still returning the response. `fetch` itself is
 * outside the model: its response is a parameter.
 */
module FetchClient {
  import opened Wrappers
  import Browser

  const ContentType: string := "Content-Type"
  const Json: string := "application/json"
  const SignInPath: string := "/auth/sign-in"
  const Unauthorized: int := 401

  /** The caller's `options` object: its `headers` property (possibly absent)
      and every other property (method, body, ...). */
  datatype Options = Options(headers: Option<map<string, string>>, rest: map<string, string>)

  /** The `options = {}` default. */
  const NoOptions: Options := Options(None, map[])

  /** What is handed to `fetch`: the URL and the init object, split as in `Options`. */
  datatype Request = Request(url: string, headers: map<string, string>, rest: map<string, string>)

  /** The response `fetch` resolves to; only its status is inspected. */
  datatype Response = Response(status: int, body: string)

  /** `...options.headers`: spreading an absent property adds nothing. */
  function CallerHeaders(options: Options): map<string, string>
  {
    match options.headers
    case None => map[]
    case Some(h) => h
  }

  /**
   * The request `fetchClient` builds: every non-header option unchanged, and a
   * header object holding the JSON content type and every caller header, the
   * caller's value winning where both name the same key.
   */
  function BuildRequest(url: string, options: Options): (r: Request)
    ensures r.url == url && r.rest == options.rest
    ensures r.headers.Keys == {ContentType} + CallerHeaders(options).Keys
    ensures forall k :: k in CallerHeaders(options) ==> r.headers[k] == CallerHeaders(options)[k]
    ensures ContentType !in CallerHeaders(options) ==> r.headers[ContentType] == Json
  {
    Request(url, map[ContentType := Json] + CallerHeaders(options), options.rest)
  }

  /** With no caller headers (absent or empty) the request carries exactly the JSON content type. */
  lemma DefaultHeaders(url: string, rest: map<string, string>)
    ensures BuildRequest(url, Options(None, rest)).headers == map[ContentType := Json]
    ensures BuildRequest(url, Options(Some(map[]), rest)).headers == map[ContentType := Json]
  {
  }

  /** `signOutUser`: navigate to the sign-in page. Despite its comment it clears
      nothing, so the stored session record survives. */
  method SignOutUser(window: Browser.Window)
    modifies window`location
    ensures window.location == SignInPath
    ensures window.localStorage == old(window.localStorage)
  {
    window.location := SignInPath;
  }

  /**
   * `fetchClient(url, options)`, given the response `fetch` resolves to.
   * Returns the request sent and the response, which is the one received for
   * every status: no throw and no retry. Only a 401 moves the window.
   */
  method FetchClient(window: Browser.Window, url: string, options: Options, received: Response)
    returns (sent: Request, response: Response)
    modifies window`location
    ensures sent == BuildRequest(url, options)
    ensures response == received
    ensures received.status == Unauthorized ==> window.location == SignInPath
    ensures received.status != Unauthorized ==> window.location == old(window.location)
    ensures window.localStorage == old(window.localStorage)
  {
    sent := BuildRequest(url, options);
    response := received;
    if received.status == Unauthorized {
      SignOutUser(window);
    }
  }
}
