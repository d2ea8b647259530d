/** The shared HTTP client layer (src/lib/api/client.ts): the module-level access-token
    holder, the request interceptor that attaches it, the response interceptor that
    refreshes the session once on a 401 answer, and the error-message extraction.
    The HTTP transport is not modelled: the status of a failed response and the outcome of
    the refresh call are inputs. */
module ApiClient {
  import opened Wrappers
  import opened Text
  import opened AppConfig
  import Browser

  /** The module variable `accessToken` with its setter and getter. */
  class TokenHolder {
    var accessToken: Option<string>

    constructor ()
      ensures accessToken == None
    {
      accessToken := None;
    }

    method SetAccessToken(token: Option<string>)
      modifies this
      ensures accessToken == token
    {
      accessToken := token;
    }

    method GetAccessToken() returns (token: Option<string>)
      ensures token == accessToken
    {
      token := accessToken;
    }
  }

  const AuthorizationHeader: string := "Authorization"

  /** The credentials of an `Authorization` header in the Bearer scheme of RFC 6750,
      section 2.1. */
  function Bearer(token: string): string {
    "Bearer " + token
  }

  /** The token carried by an `Authorization` header value, when it is a Bearer one. */
  function BearerToken(value: string): Option<string> {
    if StartsWith(value, "Bearer ") then Some(value[|"Bearer "|..]) else None
  }

  lemma BearerRoundTrip(token: string)
    ensures BearerToken(Bearer(token)) == Some(token)
  {
    assert Bearer(token)[..|"Bearer "|] == "Bearer ";
    assert Bearer(token)[|"Bearer "|..] == token;
  }

  /** The headers the request interceptor leaves: a Bearer `Authorization` when the held
      token is present and non-empty, the headers unchanged otherwise. */
  function AttachToken(headers: map<string, string>, token: Option<string>): (r: map<string, string>)
    ensures token.Some? && token.value != "" ==>
      AuthorizationHeader in r && BearerToken(r[AuthorizationHeader]) == token
    ensures token.None? || token.value == "" ==> r == headers
    ensures forall k :: k != AuthorizationHeader ==> (k in r <==> k in headers)
    ensures forall k :: k in headers && k != AuthorizationHeader ==> r[k] == headers[k]
  {
    if token.Some? && token.value != "" then
      BearerRoundTrip(token.value);
      headers[AuthorizationHeader := Bearer(token.value)]
    else headers
  }

  /** The request configuration object that axios passes through the interceptors and
      hands back with a failed response; `retry` is its `_retry` mark. */
  class RequestConfig {
    var headers: Option<map<string, string>>
    var retry: bool

    constructor (headers: Option<map<string, string>>)
      ensures this.headers == headers && !retry
    {
      this.headers := headers;
      retry := false;
    }
  }

  /** `requestInterceptor`: attach the held token to the outgoing request. */
  method RequestInterceptor(config: RequestConfig, tokens: TokenHolder) returns (r: RequestConfig)
    modifies config
    ensures r == config
    ensures config.retry == old(config.retry)
    ensures old(config.headers).None? ==> config.headers.None?
    ensures old(config.headers).Some? ==>
      config.headers == Some(AttachToken(old(config.headers).value, tokens.accessToken))
  {
    var token := tokens.GetAccessToken();
    if token.Some? && token.value != "" && config.headers.Some? {
      config.headers := Some(config.headers.value[AuthorizationHeader := Bearer(token.value)]);
    }
    r := config;
  }

  // ---------------------------------------------------------------------------------
  // Error values and getErrorMessage

  datatype FieldError = FieldError(propertyName: string, errorMessage: string)

  /** The backend's error body; `message` is absent when the body carries none. */
  datatype ApiErrorResponse = ApiErrorResponse(
    statusCode: int,
    message: Option<string>,
    errors: Option<seq<FieldError>>,
    traceId: Option<string>)

  /** What a `catch` can receive: an axios error (its own message, the response status if
      a response arrived, the response body if it has the backend's error shape), any
      other `Error`, or a thrown value that is not an `Error`. */
  datatype ErrorValue =
    | AxiosError(message: string, status: Option<int>, data: Option<ApiErrorResponse>)
    | PlainError(message: string)
    | NonError

  const UnknownErrorMessage: string := "An unknown error occurred"

  function ErrorMessages(errors: seq<FieldError>): (r: seq<string>)
    ensures |r| == |errors|
    ensures forall i :: 0 <= i < |errors| ==> r[i] == errors[i].errorMessage
  {
    if errors == [] then [] else [errors[0].errorMessage] + ErrorMessages(errors[1..])
  }

  /** `getErrorMessage`. */
  function GetErrorMessage(error: ErrorValue): string {
    match error
    case AxiosError(message, _, data) =>
      if data.Some? && data.value.message.Some? && data.value.message.value != "" then
        data.value.message.value
      else if data.Some? && data.value.errors.Some? && |data.value.errors.value| > 0 then
        Join(ErrorMessages(data.value.errors.value), ", ")
      else message
    case PlainError(message) => message
    case NonError => UnknownErrorMessage
  }

  /** The five message sources, in the order of preference, each present only when the
      error offers it. */
  function MessageSources(error: ErrorValue): seq<Option<string>> {
    var api := if error.AxiosError? then error.data else None;
    [ if api.Some? && api.value.message.Some? && api.value.message.value != ""
      then api.value.message else None,
      if api.Some? && api.value.errors.Some? && api.value.errors.value != []
      then Some(Join(ErrorMessages(api.value.errors.value), ", ")) else None,
      if error.AxiosError? then Some(error.message) else None,
      if error.AxiosError? || error.PlainError? then Some(error.message) else None,
      Some(UnknownErrorMessage) ]
  }

  function FirstPresent(sources: seq<Option<string>>): Option<string> {
    if sources == [] then None
    else if sources[0].Some? then sources[0]
    else FirstPresent(sources[1..])
  }

  /** getErrorMessage returns the first source that is present. */
  lemma ErrorMessagePrecedence(error: ErrorValue)
    ensures FirstPresent(MessageSources(error)) == Some(GetErrorMessage(error))
  {
    var s := MessageSources(error);
    assert s[1..][1..] == s[2..];
    assert s[2..][1..] == s[3..];
    assert s[3..][1..] == s[4..];
    if error.AxiosError? {
      assert s[2] == Some(error.message);
      assert FirstPresent(s[2..]) == s[2];
    } else {
      assert s[0].None? && s[1].None? && s[2].None?;
      assert FirstPresent(s) == FirstPresent(s[1..]);
      assert FirstPresent(s[1..]) == FirstPresent(s[2..]);
      assert FirstPresent(s[2..]) == FirstPresent(s[3..]);
      if error.PlainError? {
        assert FirstPresent(s[3..]) == s[3];
      } else {
        assert FirstPresent(s[4..]) == s[4];
      }
    }
  }

  /** An API message, when present and non-empty, wins over everything else. */
  lemma ApiMessageWins(message: string, status: Option<int>, body: ApiErrorResponse)
    requires body.message.Some? && body.message.value != ""
    ensures GetErrorMessage(AxiosError(message, status, Some(body))) == body.message.value
  {
  }

  // ---------------------------------------------------------------------------------
  // The response interceptor

  /** The body of a successful call to `/auth/refresh`. */
  datatype RefreshResponse = RefreshResponse(accessToken: string, refreshToken: string)

  /** What the response interceptor resolves to: the original request sent again, or a
      rejection with the original error or with the error of the failed refresh. */
  datatype ErrorOutcome =
    | RetryRequest(config: RequestConfig)
    | RejectOriginal
    | RejectRefresh(error: ErrorValue)

  const MissingRefreshTokenError: ErrorValue := PlainError("No refresh token available")

  /** A refresh is attempted only for a 401 answer on a request not yet marked. */
  predicate AttemptsRefresh(status: Option<int>, retried: bool) {
    status == Some(401) && !retried
  }

  /** A refresh token is usable when it is stored and non-empty. */
  function UsableRefreshToken(items: map<string, string>): (r: Option<string>)
    ensures r.Some? <==> RefreshTokenStorageKey in items && items[RefreshTokenStorageKey] != ""
    ensures r.Some? ==> r.value == items[RefreshTokenStorageKey]
  {
    if RefreshTokenStorageKey in items && items[RefreshTokenStorageKey] != "" then
      Some(items[RefreshTokenStorageKey])
    else None
  }

  /** The error handler installed by `createResponseInterceptor`, for a failed response
      with the given status (None when no response arrived). `refreshCall` is what the
      refresh endpoint answers if it is called; `inBrowser` is `typeof window !== 'undefined'`.
      Returns the outcome, the refresh token sent to the endpoint (None when it is not
      called) and the page the window is sent to. */
  method HandleResponseError(
    status: Option<int>, config: RequestConfig, tokens: TokenHolder,
    storage: Browser.LocalStorage, refreshCall: Result<RefreshResponse, ErrorValue>,
    inBrowser: bool)
    returns (outcome: ErrorOutcome, refreshSent: Option<string>, redirect: Option<string>)
    modifies config, tokens, storage
    // Non-401 errors and already retried requests are rejected unchanged.
    ensures !AttemptsRefresh(status, old(config.retry)) ==>
      && outcome == RejectOriginal && refreshSent == None && redirect == None
      && config.retry == old(config.retry) && config.headers == old(config.headers)
      && tokens.accessToken == old(tokens.accessToken) && storage.items == old(storage.items)
    // Otherwise the request is marked, and the stored refresh token, if usable, is sent.
    ensures AttemptsRefresh(status, old(config.retry)) ==>
      config.retry && refreshSent == UsableRefreshToken(old(storage.items))
    // Refresh success: new tokens held and stored, the request retried with the new one.
    ensures AttemptsRefresh(status, old(config.retry)) && refreshSent.Some? && refreshCall.Ok? ==>
      && outcome == RetryRequest(config)
      && tokens.accessToken == Some(refreshCall.value.accessToken)
      && storage.items == old(storage.items)[RefreshTokenStorageKey := refreshCall.value.refreshToken]
      && (old(config.headers).None? ==> config.headers.None?)
      && (old(config.headers).Some? ==>
            config.headers == Some(old(config.headers).value[AuthorizationHeader := Bearer(refreshCall.value.accessToken)]))
      && redirect == None
    // Refresh failure (no usable token, or the call failed): the session is dropped.
    ensures AttemptsRefresh(status, old(config.retry)) && (refreshSent.None? || refreshCall.Err?) ==>
      && outcome == RejectRefresh(if refreshSent.None? then MissingRefreshTokenError else refreshCall.error)
      && tokens.accessToken == None
      && storage.items == old(storage.items) - {RefreshTokenStorageKey, UserStorageKey}
      && config.headers == old(config.headers)
      && redirect == (if inBrowser then Some("/login") else None)
  {
    refreshSent, redirect := None, None;
    if status == Some(401) && !config.retry {
      config.retry := true;
      var stored := storage.GetItem(RefreshTokenStorageKey);
      var failure: ErrorValue;
      if stored.None? || stored.value == "" {
        failure := MissingRefreshTokenError;
      } else {
        refreshSent := stored;
        if refreshCall.Ok? {
          var data := refreshCall.value;
          tokens.SetAccessToken(Some(data.accessToken));
          storage.SetItem(RefreshTokenStorageKey, data.refreshToken);
          if config.headers.Some? {
            config.headers := Some(config.headers.value[AuthorizationHeader := Bearer(data.accessToken)]);
          }
          outcome := RetryRequest(config);
          return;
        }
        failure := refreshCall.error;
      }
      tokens.SetAccessToken(None);
      storage.RemoveItem(RefreshTokenStorageKey);
      storage.RemoveItem(UserStorageKey);
      if inBrowser {
        redirect := Some("/login");
      }
      outcome := RejectRefresh(failure);
      return;
    }
    outcome := RejectOriginal;
  }

  /** The `_retry` guard: once the handler has marked a configuration, a further 401 for
      that same configuration reaching the handler is rejected with that error and starts
      no second refresh. */
  method SecondUnauthorizedIsRejected(
    config: RequestConfig, tokens: TokenHolder, storage: Browser.LocalStorage,
    refreshCall: Result<RefreshResponse, ErrorValue>, inBrowser: bool)
    returns (first: ErrorOutcome, second: ErrorOutcome)
    modifies config, tokens, storage
    ensures second == RejectOriginal
  {
    var sent, redirect;
    first, sent, redirect := HandleResponseError(Some(401), config, tokens, storage, refreshCall, inBrowser);
    second, sent, redirect := HandleResponseError(Some(401), config, tokens, storage, refreshCall, inBrowser);
  }
}
