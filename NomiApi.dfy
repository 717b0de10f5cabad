/**
 * The REST client `NomiAPIClient` of src/index.ts: how one remote call is turned into an
 * HTTP request (URL, headers, serialised body), how the HTTP outcome is classified into a
 * parsed body, the `{success: true}` marker or an `API Error: …` failure, and the
 * method/path/body of each endpoint method.
 *
 * The network is the parameter `fetch`; JSON serialisation of a request body is the parameter
 * `compact` (what `JSON.stringify(body)` renders); parsing a response body is part of the
 * response given back by `fetch`.
 */
module NomiApi {
  import opened Wrappers
  import opened JsValues

  const BASE_URL := "https://api.nomi.ai/v1"
  const AUTHORIZATION := "Authorization"
  const CONTENT_TYPE := "Content-Type"
  const APPLICATION_JSON := "application/json"
  /** The TypeError Node.js raises for `error.error` when the parsed error body is `null`. */
  const NULL_ERROR_READ := "Cannot read properties of null (reading 'error')"

  datatype HttpMethod = GET | POST | PUT | DELETE
  {
    function Name(): string
    {
      match this
      case GET => "GET"
      case POST => "POST"
      case PUT => "PUT"
      case DELETE => "DELETE"
    }
  }

  /** A JavaScript object literal used as request body: a property may hold `undefined`. */
  type Payload = map<string, Option<Json>>

  /** One call of `makeRequest(method, endpoint, body?)`. */
  datatype CallSpec = CallSpec(verb: HttpMethod, endpoint: string, body: Option<Payload>)

  /** What is handed to `fetch`: URL, method, headers and the serialised body, if any. */
  datatype HttpRequest = HttpRequest(verb: string, url: string, headers: map<string, string>, body: Option<string>)

  /**
   * A response as `fetch` delivers it. `body` is what `response.json()` yields:
   * the parsed value, or the message of the error it rejects with.
   */
  datatype HttpResponse = HttpResponse(status: int, statusText: string, body: Result<Json, string>)
  {
    /** `response.ok`: the status is in the range 200-299. */
    predicate Ok() { 200 <= status <= 299 }
  }

  /** `fetch` either rejects (network failure) or delivers a response. */
  datatype FetchOutcome = NetworkError(message: string) | Received(response: HttpResponse)

  /** A `NomiAPIClient` holds only its API key; the base URL is fixed. */
  datatype Client = Client(apiKey: string)

  /** The `{success: true}` marker returned for a 204 response. */
  const SUCCESS_MARKER: Json := JObj(map["success" := JBool(true)])

  /** The object `JSON.stringify` actually renders: properties holding `undefined` are dropped. */
  function Serialized(p: Payload): (o: map<string, Json>)
    ensures forall k :: k in o <==> k in p && p[k].Some?
    ensures forall k :: k in o ==> p[k] == Some(o[k])
  {
    map k | k in p && p[k].Some? :: p[k].value
  }

  /** The headers of a request: the API key always, the JSON content type exactly when a body is sent. */
  function Headers(apiKey: string, hasBody: bool): (h: map<string, string>)
    ensures AUTHORIZATION in h && h[AUTHORIZATION] == apiKey
    ensures CONTENT_TYPE in h <==> hasBody
    ensures hasBody ==> h[CONTENT_TYPE] == APPLICATION_JSON
    ensures h.Keys <= {AUTHORIZATION, CONTENT_TYPE}
  {
    if hasBody then map[AUTHORIZATION := apiKey, CONTENT_TYPE := APPLICATION_JSON]
    else map[AUTHORIZATION := apiKey]
  }

  /** Builds the header object as `makeRequest` does: start with the key, add the content type if there is a body. */
  method BuildHeaders(apiKey: string, body: Option<Payload>) returns (headers: map<string, string>)
    ensures headers == Headers(apiKey, body.Some?)
  {
    headers := map[AUTHORIZATION := apiKey];
    if body.Some? {
      headers := headers[CONTENT_TYPE := APPLICATION_JSON];
    }
  }

  /** The request `makeRequest` passes to `fetch` for `spec`. */
  function Request(client: Client, spec: CallSpec, compact: Json -> string): (req: HttpRequest)
    ensures req.verb == spec.verb.Name()
    ensures |req.url| >= |BASE_URL| && req.url[..|BASE_URL|] == BASE_URL && req.url[|BASE_URL|..] == spec.endpoint
    ensures AUTHORIZATION in req.headers && req.headers[AUTHORIZATION] == client.apiKey
    ensures CONTENT_TYPE in req.headers <==> spec.body.Some?
    ensures req.body.Some? <==> spec.body.Some?
    ensures spec.body.Some? ==>
      req.headers[CONTENT_TYPE] == APPLICATION_JSON && req.body.value == compact(JObj(Serialized(spec.body.value)))
  {
    HttpRequest(
      spec.verb.Name(),
      BASE_URL + spec.endpoint,
      Headers(client.apiKey, spec.body.Some?),
      if spec.body.Some? then Some(compact(JObj(Serialized(spec.body.value)))) else None)
  }

  /** `error.error?.type` for a parsed error body other than `null`. */
  function ErrorType(j: Json): (t: Option<Json>)
    ensures t.Some? <==> j.JObj? && "error" in j.fields && j.fields["error"].JObj? && "type" in j.fields["error"].fields
    ensures t.Some? ==> t.value == j.fields["error"].fields["type"]
    ensures j.JObj? && "error" in j.fields && !j.fields["error"].JObj? ==> t.None?
  {
    if j.JObj? && "error" in j.fields && j.fields["error"].JObj? && "type" in j.fields["error"].fields
    then Some(j.fields["error"].fields["type"])
    else None
  }

  /** `error.error?.type || response.statusText`, rendered into the message. */
  function ErrorLabel(j: Json, statusText: string): string
  {
    match ErrorType(j)
    case Some(t) => if Truthy(t) then ToJsString(t) else statusText
    case None => statusText
  }

  /** Lines 68-80 of `makeRequest`: what the response turns into. */
  function Classify(resp: HttpResponse): (r: Result<Json, string>)
    ensures !resp.Ok() ==> r.Failure?
    ensures !resp.Ok() && resp.body.Success? && resp.body.value != JNull ==>
      r == Failure("API Error: " + ErrorLabel(resp.body.value, resp.statusText))
    ensures resp.status == 204 ==> r == Success(SUCCESS_MARKER)
    ensures resp.Ok() && resp.status != 204 ==> r == resp.body
  {
    if !resp.Ok() then
      match resp.body
      case Failure(message) => Failure(message)
      case Success(j) =>
        if j.JNull? then Failure(NULL_ERROR_READ)
        else Failure("API Error: " + ErrorLabel(j, resp.statusText))
    else if resp.status == 204 then Success(SUCCESS_MARKER)
    else resp.body
  }

  /** The outcome of `makeRequest` for `spec`: one `fetch` of the request, then classification. */
  function Perform(client: Client, spec: CallSpec, fetch: HttpRequest -> FetchOutcome, compact: Json -> string)
    : (r: Result<Json, string>)
    ensures var outcome := fetch(Request(client, spec, compact));
      && (outcome.NetworkError? ==> r == Failure(outcome.message))
      && (r.Success? ==> outcome.Received? && outcome.response.Ok())
      && (outcome.Received? ==> r == Classify(outcome.response))
  {
    match fetch(Request(client, spec, compact))
    case NetworkError(message) => Failure(message)
    case Received(resp) => Classify(resp)
  }

  /** `makeRequest`, step by step as the source writes it. */
  method MakeRequest(client: Client, spec: CallSpec, fetch: HttpRequest -> FetchOutcome, compact: Json -> string)
    returns (r: Result<Json, string>)
    ensures r == Perform(client, spec, fetch, compact)
  {
    var headers := BuildHeaders(client.apiKey, spec.body);
    var body := if spec.body.Some? then Some(compact(JObj(Serialized(spec.body.value)))) else None;
    var outcome := fetch(HttpRequest(spec.verb.Name(), BASE_URL + spec.endpoint, headers, body));
    if outcome.NetworkError? {
      return Failure(outcome.message);
    }
    var response := outcome.response;
    if !response.Ok() {
      if response.body.Failure? {
        return Failure(response.body.error);
      }
      var error := response.body.value;
      if error.JNull? {
        return Failure(NULL_ERROR_READ);
      }
      return Failure("API Error: " + ErrorLabel(error, response.statusText));
    }
    if response.status == 204 {
      return Success(SUCCESS_MARKER);
    }
    r := response.body;
  }

  // Endpoint methods: each is one call of makeRequest. An id is interpolated into the path
  // as `${id}`, so a string id appears as it is and an absent one as `undefined`.

  function ListNomis(): (spec: CallSpec)
    ensures spec.verb == GET && spec.body.None? && spec.endpoint == "/nomis"
  {
    CallSpec(GET, "/nomis", None)
  }

  function GetNomi(id: Option<Json>): (spec: CallSpec)
    ensures spec.verb == GET && spec.body.None?
    ensures id.Some? && id.value.JStr? ==> spec.endpoint == "/nomis/" + id.value.s
    ensures id.None? ==> spec.endpoint == "/nomis/undefined"
  {
    CallSpec(GET, "/nomis/" + TemplateString(id), None)
  }

  function SendMessage(nomiId: Option<Json>, messageText: Option<Json>): (spec: CallSpec)
    ensures spec.verb == POST && spec.body.Some?
    ensures nomiId.Some? && nomiId.value.JStr? ==> spec.endpoint == "/nomis/" + nomiId.value.s + "/chat"
    ensures Serialized(spec.body.value) == if messageText.Some? then map["messageText" := messageText.value] else map[]
  {
    CallSpec(POST, "/nomis/" + TemplateString(nomiId) + "/chat", Some(map["messageText" := messageText]))
  }

  function GetNomiAvatar(nomiId: Option<Json>): (spec: CallSpec)
    ensures spec.verb == GET && spec.body.None?
    ensures nomiId.Some? && nomiId.value.JStr? ==> spec.endpoint == "/nomis/" + nomiId.value.s + "/avatar"
  {
    CallSpec(GET, "/nomis/" + TemplateString(nomiId) + "/avatar", None)
  }

  function ListRooms(): (spec: CallSpec)
    ensures spec.verb == GET && spec.body.None? && spec.endpoint == "/rooms"
  {
    CallSpec(GET, "/rooms", None)
  }

  function CreateRoom(params: Payload): (spec: CallSpec)
    ensures spec.verb == POST && spec.endpoint == "/rooms" && spec.body == Some(params)
  {
    CallSpec(POST, "/rooms", Some(params))
  }

  function GetRoom(roomId: Option<Json>): (spec: CallSpec)
    ensures spec.verb == GET && spec.body.None?
    ensures roomId.Some? && roomId.value.JStr? ==> spec.endpoint == "/rooms/" + roomId.value.s
    ensures roomId.None? ==> spec.endpoint == "/rooms/undefined"
  {
    CallSpec(GET, "/rooms/" + TemplateString(roomId), None)
  }

  function UpdateRoom(roomId: Option<Json>, params: Payload): (spec: CallSpec)
    ensures spec.verb == PUT && spec.body == Some(params)
    ensures roomId.Some? && roomId.value.JStr? ==> spec.endpoint == "/rooms/" + roomId.value.s
  {
    CallSpec(PUT, "/rooms/" + TemplateString(roomId), Some(params))
  }

  function DeleteRoom(roomId: Option<Json>): (spec: CallSpec)
    ensures spec.verb == DELETE && spec.body.None?
    ensures roomId.Some? && roomId.value.JStr? ==> spec.endpoint == "/rooms/" + roomId.value.s
  {
    CallSpec(DELETE, "/rooms/" + TemplateString(roomId), None)
  }

  function SendRoomMessage(roomId: Option<Json>, messageText: Option<Json>): (spec: CallSpec)
    ensures spec.verb == POST && spec.body.Some?
    ensures roomId.Some? && roomId.value.JStr? ==> spec.endpoint == "/rooms/" + roomId.value.s + "/chat"
    ensures Serialized(spec.body.value) == if messageText.Some? then map["messageText" := messageText.value] else map[]
  {
    CallSpec(POST, "/rooms/" + TemplateString(roomId) + "/chat", Some(map["messageText" := messageText]))
  }

  function RequestNomiMessage(roomId: Option<Json>, nomiUuid: Option<Json>): (spec: CallSpec)
    ensures spec.verb == POST && spec.body.Some?
    ensures roomId.Some? && roomId.value.JStr? ==> spec.endpoint == "/rooms/" + roomId.value.s + "/chat/request"
    ensures Serialized(spec.body.value) == if nomiUuid.Some? then map["nomiUuid" := nomiUuid.value] else map[]
  {
    CallSpec(POST, "/rooms/" + TemplateString(roomId) + "/chat/request", Some(map["nomiUuid" := nomiUuid]))
  }

  // Properties of the client.

  /** Setting a property to `undefined` removes it from the wire; setting it to a value puts exactly that value there. */
  lemma SerializedUpdate(p: Payload, k: string, v: Json)
    ensures Serialized(p[k := None]) == map k' | k' in Serialized(p) && k' != k :: Serialized(p)[k']
    ensures Serialized(p[k := Some(v)]) == Serialized(p)[k := v]
  {
    assert Serialized(p[k := Some(v)]).Keys == Serialized(p).Keys + {k};
  }

  /** A body with no `undefined` property is sent with all its properties. */
  lemma SerializedKeepsDefinedBody(p: Payload)
    requires forall k :: k in p ==> p[k].Some?
    ensures Serialized(p).Keys == p.Keys
  {
  }

  /** `fetch` is consulted once, on the built request: two networks that agree on it give the same outcome. */
  lemma PerformSendsOnlyTheBuiltRequest(client: Client, spec: CallSpec, f1: HttpRequest -> FetchOutcome,
                                        f2: HttpRequest -> FetchOutcome, compact: Json -> string)
    requires f1(Request(client, spec, compact)) == f2(Request(client, spec, compact))
    ensures Perform(client, spec, f1, compact) == Perform(client, spec, f2, compact)
  {
  }

  /** A non-ok response whose error body names a non-empty string `error.type` fails with that type, whatever else the body holds. */
  lemma ApiErrorNamesErrorType(resp: HttpResponse, errorType: string)
    requires !resp.Ok() && resp.body.Success? && ErrorType(resp.body.value) == Some(JStr(errorType)) && errorType != ""
    ensures Classify(resp) == Failure("API Error: " + errorType)
  {
  }

  /** More generally, any truthy `error.type` wins over the status text, rendered as `${}` renders it. */
  lemma ApiErrorNamesTruthyType(resp: HttpResponse, errorType: Json)
    requires !resp.Ok() && resp.body.Success? && ErrorType(resp.body.value) == Some(errorType) && Truthy(errorType)
    ensures Classify(resp) == Failure("API Error: " + ToJsString(errorType))
  {
  }

  /** A non-ok response whose (non-null) error body lacks a usable `error.type` fails with the status text. */
  lemma ApiErrorFallsBackToStatusText(resp: HttpResponse)
    requires !resp.Ok() && resp.body.Success? && resp.body.value != JNull
    requires ErrorType(resp.body.value).None? || !Truthy(ErrorType(resp.body.value).value)
    ensures Classify(resp) == Failure("API Error: " + resp.statusText)
  {
  }

  /** A 204 response yields the marker whatever its body would have parsed to: the body is not read. */
  lemma NoContentIgnoresBody(status: int, statusText: string, b1: Result<Json, string>, b2: Result<Json, string>)
    requires status == 204
    ensures Classify(HttpResponse(status, statusText, b1)) == Classify(HttpResponse(status, statusText, b2))
              == Success(SUCCESS_MARKER)
  {
  }

  /** A non-ok response whose body cannot be read as an error object fails with the reading error, not the status text. */
  lemma UnreadableErrorBody(resp: HttpResponse)
    requires !resp.Ok() && (resp.body.Failure? || resp.body == Success(JNull))
    ensures resp.body.Failure? ==> Classify(resp) == Failure(resp.body.error)
    ensures resp.body == Success(JNull) ==> Classify(resp) == Failure(NULL_ERROR_READ)
  {
  }
}
