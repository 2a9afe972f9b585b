/** The HTTP vocabulary of the service: requests as the `requests` library
    sends them, responses as it returns them, and the exceptions the service
    raises or lets escape. */
module Http {
  import opened Wrappers
  import opened JsonValues

  newtype byte = x: int | 0 <= x < 256

  type Bytes = seq<byte>

  /** Header names to values; a later merge overrides an earlier one. */
  type Headers = map<string, string>

  /** Query arguments passed as `params=`. */
  type Args = map<string, string>

  /** The keyword arguments of `Graph.request`: `headers=`, `params=`,
      `json=` and `data=`, each possibly absent. */
  datatype Options = Options(
    headers: Option<Headers>,
    params: Option<Args>,
    json: Option<Json>,
    data: Option<Bytes>)

  const NoOptions := Options(None, None, None, None)

  /** A prepared request as it goes on the wire. */
  datatype HttpRequest = HttpRequest(
    verb: string,
    url: string,
    headers: Headers,
    params: Option<Args>,
    json: Option<Json>,
    data: Option<Bytes>)

  /** A response: status, body text, the body decoded as JSON (`None` when
      `resp.json()` would raise) and the raw bytes. */
  datatype HttpResponse = HttpResponse(
    status: int,
    text: string,
    json: Option<Json>,
    content: Bytes)

  /** `requests.Response.ok`: false exactly for the 4xx and 5xx statuses. */
  predicate IsOk(status: int)
  {
    !(400 <= status < 600)
  }

  /** A reply of the OAuth2 token endpoint, or the transport failure that
      kept it from arriving. */
  datatype TokenReply =
    | TokenUnreachable(reason: string)
    | TokenResponse(status: int, json: Option<Json>)

  /** The exceptions the core raises or lets escape. */
  datatype Error =
    | AuthError(detail: string)
    | UnexpectedStatus(status: int, text: string)
    | JsonDecodeError
    | TypeError(detail: string)
    | KeyError(key: string)
    | IndexError
    | UnboundLocalError(name: string)
    | InvalidPath(path: string)
    | InvalidUrl

  /** The bearer credential header of section 2.1 of RFC 6750. */
  function BearerHeader(token: string): (h: Headers)
    ensures h.Keys == {"Authorization"}
    ensures h["Authorization"] == "Bearer " + token
  {
    map["Authorization" := "Bearer " + token]
  }
}
