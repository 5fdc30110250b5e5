/** The HTTP client's interceptors and the persona generation call (frontend/src/lib/api.ts).
    Requests and errors are reduced to the parts the interceptors read: the headers, and an
    error's `code`, its `response` (status and body, absent when the server never answered) and
    its `message`. The transport itself is left out. */
module Api {
  import opened Wrappers
  import opened JsValues
  import BrowserStorage

  /** `config.headers` as name to value. */
  type Headers = map<string, string>

  /** The request interceptor (frontend/src/lib/api.ts:20-27): a stored, non-empty token is sent
      as a bearer credential. */
  function WithAuthorization(headers: Headers, stored: Option<string>): (r: Headers)
    ensures "Authorization" in r <==> "Authorization" in headers || (stored.Some? && stored.value != "")
    ensures stored.Some? && stored.value != "" ==> r["Authorization"] == "Bearer " + stored.value
    ensures forall h :: h in headers && h != "Authorization" ==> h in r && r[h] == headers[h]
    ensures stored.None? || stored.value == "" ==> r == headers
  {
    if stored.Some? && stored.value != "" then headers["Authorization" := "Bearer " + stored.value]
    else headers
  }

  method InterceptRequest(storage: BrowserStorage.LocalStorage, headers: Headers) returns (r: Headers)
    ensures r == WithAuthorization(headers, storage.token)
  {
    var token := storage.token;
    r := headers;
    if token.Some? && token.value != "" {
      r := r["Authorization" := "Bearer " + token.value];
    }
  }

  /** A request without an Authorization header of its own carries one exactly when a token is
      stored, and then it is that token. */
  lemma AuthorizationIffToken(headers: Headers, stored: Option<string>, credential: string)
    requires "Authorization" !in headers
    ensures var r := WithAuthorization(headers, stored);
            ("Authorization" in r <==> stored.Some? && stored.value != "")
            && ("Authorization" in r && r["Authorization"] == "Bearer " + credential ==> stored == Some(credential))
  {
    var r := WithAuthorization(headers, stored);
    if "Authorization" in r && r["Authorization"] == "Bearer " + credential {
      assert ("Bearer " + credential)[7..] == credential;
      assert ("Bearer " + stored.value)[7..] == stored.value;
    }
  }

  datatype Response = Response(status: int, data: Value)

  /** An axios error as the response interceptor sees it. */
  datatype HttpError = HttpError(code: Value, response: Option<Response>, message: Value)

  const TimeoutMessage: string := "Request timeout - the server took too long to respond"
  const ServerErrorMessage: string := "Server error - please try again later"
  const InvalidRequestMessage: string := "Invalid request"
  const NetworkErrorMessage: string := "Network error - please check your connection"

  predicate HasStatus(e: HttpError, status: int)
  {
    e.response.Some? && e.response.value.status == status
  }

  predicate Aborted(e: HttpError)
  {
    e.code == Str("ECONNABORTED")
  }

  /** `error.response.data?.detail`. */
  function Detail(r: Response): Value
  {
    Get(r.data, "detail")
  }

  /** The message the response interceptor leaves on the error
      (frontend/src/lib/api.ts:40-48): an aborted request is a timeout whatever its status; then
      500 and 400 are recognised; an error without a response is a network error; any other
      error keeps its message. */
  function ClassifiedMessage(e: HttpError): (r: Value)
    ensures Aborted(e) ==> r == Str(TimeoutMessage)
    ensures !Aborted(e) && HasStatus(e, 500) ==> r == Str(ServerErrorMessage)
    ensures !Aborted(e) && HasStatus(e, 400) ==>
              r == if Truthy(Detail(e.response.value)) then Detail(e.response.value) else Str(InvalidRequestMessage)
    ensures !Aborted(e) && e.response.None? ==> r == Str(NetworkErrorMessage)
    ensures !Aborted(e) && e.response.Some? && e.response.value.status != 500 && e.response.value.status != 400 ==> r == e.message
  {
    if Aborted(e) then Str(TimeoutMessage)
    else if HasStatus(e, 500) then Str(ServerErrorMessage)
    else if HasStatus(e, 400) then
      var detail := Detail(e.response.value);
      if Truthy(detail) then detail else Str(InvalidRequestMessage)
    else if e.response.None? then Str(NetworkErrorMessage)
    else e.message
  }

  /** The interceptor's message is one of its four fixed texts, a 400's detail, or the original
      message; and a 401 keeps the original message. */
  lemma ClassifiedMessageSources(e: HttpError)
    ensures var r := ClassifiedMessage(e);
            || r in {Str(TimeoutMessage), Str(ServerErrorMessage), Str(InvalidRequestMessage), Str(NetworkErrorMessage)}
            || (HasStatus(e, 400) && r == Detail(e.response.value))
            || r == e.message
    ensures !Aborted(e) && HasStatus(e, 401) ==> ClassifiedMessage(e) == e.message
  {
  }

  /** Classifying twice changes nothing more: a 400's detail is kept as it is. */
  lemma ClassifyIsIdempotent(e: HttpError)
    ensures ClassifiedMessage(e.(message := ClassifiedMessage(e))) == ClassifiedMessage(e)
  {
  }

  /** The response interceptor's error path (frontend/src/lib/api.ts:32-51): a 401 forgets the
      stored token; the error comes back rejected with its classified message. */
  method InterceptError(storage: BrowserStorage.LocalStorage, e: HttpError) returns (rejected: HttpError)
    modifies storage
    ensures storage.token == if HasStatus(e, 401) then None else old(storage.token)
    ensures rejected == e.(message := ClassifiedMessage(e))
  {
    if e.response.Some? && e.response.value.status == 401 {
      storage.RemoveToken();
    }
    rejected := e.(message := ClassifiedMessage(e));
  }

  /** `personaAPI.generatePersonas`'s handling of the body (frontend/src/lib/api.ts:88-92): a body
      whose `success` is not truthy is an error carrying the server's message, or a default
      when that is empty or missing. */
  function GenerateResult(body: Value): (r: Result<Value>)
    ensures r.Success? <==> Truthy(Get(body, "success"))
    ensures r.Success? ==> r.value == Get(body, "data")
    ensures r.Failure? && Get(body, "message").Str? && Get(body, "message").s != "" ==> r.error == Get(body, "message").s
    ensures r.Failure? && !Truthy(Get(body, "message")) ==> r.error == "Failed to generate personas"
  {
    if !Truthy(Get(body, "success")) then
      var message := Get(body, "message");
      Failure(if Truthy(message) then ToString(message) else "Failed to generate personas")
    else Success(Get(body, "data"))
  }
}
