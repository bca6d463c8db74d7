/** The client's HTTP wrapper: request URLs, the body sent by `post`, the
    options object with the stored bearer token moved into an
    `Authorization` header, and the conversion of an HTTP failure into an
    error value (with a logout on 401). */
module HttpClient {
  import opened Shared

  type Headers = map<string, string>

  /** A request body, with enough of JavaScript's values to tell the falsy
      ones apart. */
  datatype Body = Undefined | Null | Bool(b: bool) | Num(n: int) | Str(s: string) | Object(fields: map<string, string>)

  const EmptyObject: Body := Object(map[])

  /** JavaScript falsiness of a body value (NaN is not modelled). */
  predicate Falsy(body: Body) {
    body.Undefined? || body.Null? || body == Bool(false) || body == Num(0) || body == Str("")
  }

  /** The body `post` hands to the transport: `body || {}`. */
  function PostBody(body: Body): (r: Body)
    ensures Falsy(body) ==> r == EmptyObject
    ensures !Falsy(body) ==> r == body
    ensures !Falsy(r)
  {
    if Falsy(body) then EmptyObject else body
  }

  /** JavaScript truthiness of an optional string: present and not empty. */
  predicate Truthy(s: Option<string>) {
    s.Some? && s.value != ""
  }

  const AuthorizationHeader := "Authorization"

  function BearerValue(token: string): string {
    "Bearer " + token
  }

  /** `{ ...(headers || {}), Authorization: 'Bearer ' + token }`. */
  function WithAuthorization(headers: Option<Headers>, token: string): (r: Headers)
    ensures AuthorizationHeader in r && r[AuthorizationHeader] == BearerValue(token)
    ensures headers.Some? ==> forall h :: h in headers.value && h != AuthorizationHeader ==> h in r && r[h] == headers.value[h]
    ensures forall h :: h in r && h != AuthorizationHeader ==> headers.Some? && h in headers.value
    ensures headers.None? ==> r.Keys == {AuthorizationHeader}
  {
    (if headers.Some? then headers.value else map[])[AuthorizationHeader := BearerValue(token)]
  }

  /** The value of an options object: its `headers`, its per-request
      `bearerToken` and every other property (e.g. `observe`). */
  datatype OptionsValue = OptionsValue(headers: Option<Headers>, bearerToken: Option<string>, others: map<string, string>)

  const NoOptions := OptionsValue(None, None, map[])

  /** What `sanitizeOptions` leaves in the options object (or returns in
      place of a missing one), given the stored token. */
  function Sanitized(token: Option<string>, options: Option<OptionsValue>): (r: OptionsValue)
    // with a stored token: the caller's headers plus an Authorization header that overrides theirs
    ensures Truthy(token) ==>
      r.headers == Some(WithAuthorization(if options.Some? then options.value.headers else None, token.value))
    // without one: the headers are the caller's, untouched, and no options give `{}`
    ensures !Truthy(token) ==> r.headers == (if options.Some? then options.value.headers else None)
    ensures !Truthy(token) && options.None? ==> r == NoOptions
    // a non-empty per-request token is deleted; nothing else is ever put there
    ensures r.bearerToken == (if options.Some? && !Truthy(options.value.bearerToken) then options.value.bearerToken else None)
    ensures r.others == (if options.Some? then options.value.others else map[])
  {
    var withHeaders :=
      if options.Some? && Truthy(token) then Some(options.value.(headers := Some(WithAuthorization(options.value.headers, token.value))))
      else if Truthy(token) then Some(OptionsValue(Some(WithAuthorization(None, token.value)), None, map[]))
      else options;
    var withoutToken :=
      if withHeaders.Some? && Truthy(withHeaders.value.bearerToken) then Some(withHeaders.value.(bearerToken := None))
      else withHeaders;
    if withoutToken.Some? then withoutToken.value else NoOptions
  }

  /** The headers never depend on the per-request token. */
  lemma RequestTokenNeverUsed(token: Option<string>, options: OptionsValue, t1: Option<string>, t2: Option<string>)
    ensures Sanitized(token, Some(options.(bearerToken := t1))).headers == Sanitized(token, Some(options.(bearerToken := t2))).headers
  {
  }

  /** A mutable options object, as `sanitizeOptions` receives and updates it. */
  class HttpOptions {
    var headers: Option<Headers>
    var bearerToken: Option<string>
    var others: map<string, string>

    function Value(): OptionsValue
      reads this
    {
      OptionsValue(headers, bearerToken, others)
    }

    constructor (v: OptionsValue)
      ensures Value() == v
    {
      headers := v.headers;
      bearerToken := v.bearerToken;
      others := v.others;
    }
  }

  datatype Verb = GET | POST | PATCH | DELETE

  /** A request as handed to Angular's HttpClient. */
  datatype Request = Request(verb: Verb, url: string, body: Option<Body>, options: OptionsValue)

  /** An HTTP failure: its status (0 for a client-side or network error) and the server's error body. */
  datatype HttpErrorResponse = HttpErrorResponse(status: int, error: ErrorBody)

  const NetworkErrorBody := ErrorBody(0, "A client-side or network error occurred.", "client-side or network error")

  /** The error value `handleError` emits for a failure. */
  function ErrorValueFor(err: HttpErrorResponse): (r: ServerErrorResponse)
    ensures err.status == 0 ==> r == ServerErrorResponse(NetworkErrorBody)
    ensures err.status != 0 ==> r == ServerErrorResponse(err.error)
  {
    if err.status == 0 then ServerErrorResponse(NetworkErrorBody) else ServerErrorResponse(err.error)
  }

  /** What the transport delivers for one request. */
  datatype Outcome<+T> = Received(body: T) | Failure(err: HttpErrorResponse)

  class BaseHttpClient {
    const baseUrl: string
    /** The access token mirrored from the store. */
    var bearerToken: Option<string>
    /** The user actions dispatched to the store, oldest first. */
    var dispatched: seq<UserAction>

    constructor (baseUrl: string)
      ensures this.baseUrl == baseUrl && bearerToken == None && dispatched == []
    {
      this.baseUrl := baseUrl;
      bearerToken := None;
      dispatched := [];
    }

    /** The store subscription: the stored token follows the store's user. */
    method OnStoreUpdate(accessToken: Option<string>)
      modifies this`bearerToken
      ensures bearerToken == accessToken
    {
      bearerToken := accessToken;
    }

    /** Moves the stored token into an `Authorization` header of `options`,
        in place, and returns it; a missing `options` gives a new object. */
    method SanitizeOptions(options: HttpOptions?) returns (r: HttpOptions)
      modifies options
      ensures options != null ==> r == options
      ensures options == null ==> fresh(r)
      ensures r.Value() == Sanitized(bearerToken, if options == null then None else Some(old(options.Value())))
    {
      var opts := options;
      if opts != null && Truthy(bearerToken) {
        opts.headers := Some(WithAuthorization(opts.headers, bearerToken.value));
      } else if Truthy(bearerToken) {
        opts := new HttpOptions(OptionsValue(Some(WithAuthorization(None, bearerToken.value)), None, map[]));
      }
      if opts != null && Truthy(opts.bearerToken) {
        opts.bearerToken := None;
      }
      if opts == null {
        r := new HttpOptions(NoOptions);
      } else {
        r := opts;
      }
    }

    method Get(endpoint: string, options: HttpOptions?) returns (req: Request)
      modifies options
      ensures req.verb == GET && req.url == baseUrl + endpoint && req.body == None
      ensures req.options == Sanitized(bearerToken, if options == null then None else Some(old(options.Value())))
      ensures options != null ==> options.Value() == req.options
    {
      var url := baseUrl + endpoint;
      var opts := SanitizeOptions(options);
      req := Request(GET, url, None, opts.Value());
    }

    method Post(endpoint: string, body: Body, options: HttpOptions?) returns (req: Request)
      modifies options
      ensures req.verb == POST && req.url == baseUrl + endpoint && req.body == Some(PostBody(body))
      ensures req.options == Sanitized(bearerToken, if options == null then None else Some(old(options.Value())))
      ensures options != null ==> options.Value() == req.options
    {
      var url := baseUrl + endpoint;
      var opts := SanitizeOptions(options);
      req := Request(POST, url, Some(PostBody(body)), opts.Value());
    }

    /** Unlike `Post`, a falsy body is sent as it is. */
    method Patch(endpoint: string, body: Body, options: HttpOptions?) returns (req: Request)
      modifies options
      ensures req.verb == PATCH && req.url == baseUrl + endpoint && req.body == Some(body)
      ensures req.options == Sanitized(bearerToken, if options == null then None else Some(old(options.Value())))
      ensures options != null ==> options.Value() == req.options
    {
      var url := baseUrl + endpoint;
      var opts := SanitizeOptions(options);
      req := Request(PATCH, url, Some(body), opts.Value());
    }

    method Delete(endpoint: string, options: HttpOptions?) returns (req: Request)
      modifies options
      ensures req.verb == DELETE && req.url == baseUrl + endpoint && req.body == None
      ensures req.options == Sanitized(bearerToken, if options == null then None else Some(old(options.Value())))
      ensures options != null ==> options.Value() == req.options
    {
      var url := baseUrl + endpoint;
      var opts := SanitizeOptions(options);
      req := Request(DELETE, url, None, opts.Value());
    }

    /** Turns a failure into an error value; a 401 also logs the user out. */
    method HandleError(err: HttpErrorResponse) returns (r: ServerErrorResponse)
      modifies this`dispatched
      ensures r == ErrorValueFor(err)
      ensures dispatched == old(dispatched) + (if err.status == 401 then [Logout] else [])
    {
      if err.status == 0 {
        r := ServerErrorResponse(NetworkErrorBody);
      } else {
        if err.status == 401 {
          dispatched := dispatched + [Logout];
        }
        r := ServerErrorResponse(err.error);
      }
    }

    /** `catchError(handleError)` on a request's observable: a response
        passes through, a failure becomes an error value, never an exception. */
    method Settle<T>(outcome: Outcome<T>) returns (r: HttpResult<T>)
      modifies this`dispatched
      ensures outcome.Received? ==> r == Ok(outcome.body) && dispatched == old(dispatched)
      ensures outcome.Failure? ==> r == Err(ErrorValueFor(outcome.err))
      ensures outcome.Failure? ==> dispatched == old(dispatched) + (if outcome.err.status == 401 then [Logout] else [])
    {
      match outcome
      case Received(body) =>
        r := Ok(body);
      case Failure(err) =>
        var e := HandleError(err);
        r := Err(e);
    }
  }
}
