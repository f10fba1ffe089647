/**
 * The remote object gateway (`HubSpotBaseService`): URL construction, the
 * GET/POST/PUT/DELETE calls and the translation of an HTTP status error into
 * a `HubSpotApiException`. The HTTP exchange itself and Jackson's parsing of
 * an error body are oracles held by a `Gateway`.
 */
module BaseService {
  import opened Wrappers
  import opened Payloads
  import opened Errors

  datatype HttpMethod = GET | POST | PUT | DELETE

  /** One HTTP call: verb, absolute URL and JSON body (None for no body). */
  datatype Request = Request(verb: HttpMethod, url: string, body: Option<Json>)

  /**
   * What the transport does with a request: a 2xx answer with its status and
   * parsed body; an `HttpStatusCodeException` with status and raw body; or an
   * I/O failure below the HTTP layer.
   */
  datatype Reply<+T> =
    | Success(status: int, body: T)
    | StatusError(status: int, rawBody: string)
    | TransportError(message: string)

  /**
   * The collaborators every service shares: the configured base URL, the
   * RestTemplate (one oracle per response type) and the ObjectMapper's
   * reading of an error body (None: parsing threw; Some(m): parsed, with the
   * `message` field m, which may itself be null).
   */
  class Gateway {
    const baseUrl: string
    const pages: Request -> Reply<Option<Page>>
    const records: Request -> Reply<Option<HubSpotObject>>
    const schemas: Request -> Reply<Option<PropertiesResponse>>
    const deletes: Request -> Reply<()>
    const parseError: string -> Option<Option<string>>

    constructor (baseUrl: string,
                 pages: Request -> Reply<Option<Page>>,
                 records: Request -> Reply<Option<HubSpotObject>>,
                 schemas: Request -> Reply<Option<PropertiesResponse>>,
                 deletes: Request -> Reply<()>,
                 parseError: string -> Option<Option<string>>)
      ensures this.baseUrl == baseUrl
    {
      this.baseUrl := baseUrl;
      this.pages := pages;
      this.records := records;
      this.schemas := schemas;
      this.deletes := deletes;
      this.parseError := parseError;
    }
  }

  /** `buildUrl`: the configured base URL followed by the endpoint. */
  function BuildUrl(baseUrl: string, endpoint: string): string
  {
    baseUrl + endpoint
  }

  /** The built URL splits back into the base URL and the endpoint, with nothing in between. */
  lemma BuildUrlParts(baseUrl: string, endpoint: string)
    ensures var url := BuildUrl(baseUrl, endpoint);
      |url| == |baseUrl| + |endpoint| && url[..|baseUrl|] == baseUrl && url[|baseUrl|..] == endpoint
  {
    var url := BuildUrl(baseUrl, endpoint);
    assert url[..|baseUrl|] == baseUrl;
  }

  /** The message used when the error body parses but carries no `message`. */
  const DefaultErrorMessage := "HubSpot API 调用失败"

  /**
   * The exception `handleApiException` throws for status `status` and raw body
   * `body`: status and body are kept as they are; the message is the parsed
   * `message`, the default text, or the raw body, in that order of preference.
   */
  function ApiError(status: int, body: string, parse: string -> Option<Option<string>>): (e: HubSpotApiException)
    ensures e.statusCode == status && e.errorDetails == Some(body) && e.cause.None?
    ensures parse(body).None? ==> e.message == body
    ensures parse(body) == Some(None) ==> e.message == DefaultErrorMessage
    ensures parse(body).Some? && parse(body).value.Some? ==> e.message == parse(body).value.value
  {
    var message :=
      match parse(body)
      case None => body
      case Some(None) => DefaultErrorMessage
      case Some(Some(m)) => m;
    NewApiException(message, status, Some(body))
  }

  /**
   * `handleApiException`: chooses the message step by step and yields the
   * exception it throws. It has no normal outcome; callers turn its result
   * into an `Err` (see `Complete`).
   */
  method HandleApiException(status: int, body: string, parse: string -> Option<Option<string>>)
    returns (thrown: HubSpotApiException)
    ensures thrown == ApiError(status, body, parse)
  {
    var errorMessage := DefaultErrorMessage;
    var parsed := parse(body);
    if parsed.None? {
      errorMessage := body;
    } else if parsed.value.Some? {
      errorMessage := parsed.value.value;
    }
    thrown := NewApiException(errorMessage, status, Some(body));
  }

  /**
   * The try/catch around every `restTemplate.exchange` of the base service: a
   * 2xx body is returned, a status error always becomes a HubSpotApiException,
   * and an I/O failure passes through untouched.
   */
  function Complete<T>(reply: Reply<T>, parse: string -> Option<Option<string>>): (r: Result<T>)
    ensures r.Ok? <==> reply.Success?
    ensures reply.Success? ==> r.value == reply.body
    ensures reply.StatusError? ==> r.error == ApiFailure(ApiError(reply.status, reply.rawBody, parse))
    ensures reply.TransportError? ==> r.error == TransportFailure(reply.message)
  {
    match reply
    case Success(_, body) => Ok(body)
    case StatusError(status, raw) => Err(ApiFailure(ApiError(status, raw, parse)))
    case TransportError(message) => Err(TransportFailure(message))
  }

  /** `get(endpoint, type)`: GET on the built URL through the oracle for that response type. */
  function Get<T>(gw: Gateway, call: Request -> Reply<T>, endpoint: string): Result<T>
  {
    Complete(call(Request(GET, BuildUrl(gw.baseUrl, endpoint), None)), gw.parseError)
  }

  /** `post(endpoint, body, type)`. */
  function Post<T>(gw: Gateway, call: Request -> Reply<T>, endpoint: string, body: Json): Result<T>
  {
    Complete(call(Request(POST, BuildUrl(gw.baseUrl, endpoint), Some(body))), gw.parseError)
  }

  /** `put(endpoint, body, type)`. */
  function Put<T>(gw: Gateway, call: Request -> Reply<T>, endpoint: string, body: Json): Result<T>
  {
    Complete(call(Request(PUT, BuildUrl(gw.baseUrl, endpoint), Some(body))), gw.parseError)
  }

  /**
   * `delete(endpoint)`: the status code of a successful DELETE; an HTTP error
   * status never comes back as a value, it is thrown as a HubSpotApiException.
   */
  function Delete(gw: Gateway, endpoint: string): (r: Result<int>)
    ensures var reply := gw.deletes(Request(DELETE, gw.baseUrl + endpoint, None));
      && (r.Ok? <==> reply.Success?)
      && (reply.Success? ==> r.value == reply.status)
      && (reply.StatusError? ==> r.error == ApiFailure(ApiError(reply.status, reply.rawBody, gw.parseError)))
      && (reply.TransportError? ==> r.error == TransportFailure(reply.message))
  {
    var reply := gw.deletes(Request(DELETE, BuildUrl(gw.baseUrl, endpoint), None));
    match Complete(reply, gw.parseError)
    case Ok(_) => Ok(reply.status)
    case Err(e) => Err(e)
  }

  /**
   * `getPaginatedData(endpoint, type)`: a GET of a list page on the full URL,
   * its reply translated as every base-service call translates it.
   */
  function GetPaginatedData(gw: Gateway, endpoint: string): (r: Result<Option<Page>>)
    ensures var reply := gw.pages(Request(GET, gw.baseUrl + endpoint, None));
      r == Complete(reply, gw.parseError)
  {
    Get(gw, gw.pages, endpoint)
  }

  /** The endpoint prefix of the property-schema API. */
  const PropertiesPath := "/crm/v3/properties/"

  /**
   * `getObjectProperties(objectType)`: GET of the schema endpoint for the type
   * name, with status errors wrapped as for every other call.
   */
  function GetObjectProperties(gw: Gateway, objectType: string): (r: Result<Option<PropertiesResponse>>)
    ensures var reply := gw.schemas(Request(GET, gw.baseUrl + "/crm/v3/properties/" + objectType, None));
      r == Complete(reply, gw.parseError)
  {
    assert BuildUrl(gw.baseUrl, PropertiesPath + objectType) == gw.baseUrl + "/crm/v3/properties/" + objectType;
    Get(gw, gw.schemas, PropertiesPath + objectType)
  }
}
