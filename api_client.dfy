/**
 * The API client: the errors it reports, the request it builds for an
 * endpoint, how it classifies the response, and the `fetch*` calls that unwrap
 * each envelope. The network and the keychain are parameters: the token is an
 * optional string, and the session is a function from the outgoing request to
 * what came back.
 */
module Client {
  import opened Wrappers
  import opened Json
  import opened Timestamps
  import opened Endpoints
  import opened Submolts
  import opened Posts
  import opened Responses

  /** The errors thrown below the client: the session's own, and the decoder's. */
  datatype Cause =
    | BadServerResponse
    | Transport(description: string)
    | Decoding(error: DecodeError)

  /** `APIError`; the error a case wraps is kept as its cause. */
  datatype APIError =
    | InvalidURL
    | NetworkError(cause: Cause)
    | DecodingError(cause: Cause)
    | HttpError(code: int)
    | Unauthorized

  const ServerErrorPrefix: string := "Server error: "

  /** `errorDescription`; `describe` stands for the wrapped error's `localizedDescription`. */
  function ErrorDescription(e: APIError, describe: Cause -> string): (text: string)
    ensures e.InvalidURL? ==> text == "Invalid URL"
    ensures e.Unauthorized? ==> text == "Please log in to continue"
    ensures e.NetworkError? ==> text == describe(e.cause)
    ensures e.DecodingError? ==> text == "Failed to parse response: " + describe(e.cause)
    ensures e.HttpError? ==> text == ServerErrorPrefix + Decimal(e.code)
  {
    match e
    case InvalidURL => "Invalid URL"
    case NetworkError(cause) => describe(cause)
    case DecodingError(cause) => "Failed to parse response: " + describe(cause)
    case HttpError(code) => ServerErrorPrefix + Decimal(code)
    case Unauthorized => "Please log in to continue"
  }

  /** The status code of a server error can be read back from its message. */
  lemma HttpErrorCodeInMessage(code: int, describe: Cause -> string)
    ensures var text := ErrorDescription(HttpError(code), describe);
      |text| > |ServerErrorPrefix| && text[..|ServerErrorPrefix|] == ServerErrorPrefix
      && ParseDecimal(text[|ServerErrorPrefix|..]) == Some(code)
  {
    var text := ErrorDescription(HttpError(code), describe);
    assert text[|ServerErrorPrefix|..] == Decimal(code);
    DecimalRoundTrip(code);
  }

  /** What a `fetch*` call can throw: an `APIError`, or any other error passed through. */
  datatype Thrown = Api(e: APIError) | Other(cause: Cause)

  /** The two `catch` clauses every view model has: an `APIError` is kept, anything else becomes `.networkError`. */
  function Caught(t: Thrown): (e: APIError)
    ensures t.Api? ==> e == t.e
    ensures t.Other? ==> e == NetworkError(t.cause)
  {
    match t
    case Api(e) => e
    case Other(cause) => NetworkError(cause)
  }

  /** What the session hands back for a request. `body` is nil when the data is not JSON at all. */
  datatype HttpResponse =
    | TransportFailure(description: string)
    | NotHttp
    | Http(statusCode: int, body: Option<Json>)

  datatype StatusAction = DecodeBody | RejectUnauthorized | RejectStatus(code: int)

  /** The `switch` on the status code. */
  function Classify(statusCode: int): (a: StatusAction)
    ensures a.DecodeBody? <==> 200 <= statusCode <= 299
    ensures a.RejectUnauthorized? <==> statusCode == 401
    ensures a.RejectStatus? <==> !(200 <= statusCode <= 299) && statusCode != 401
    ensures a.RejectStatus? ==> a.code == statusCode
  {
    if 200 <= statusCode <= 299 then DecodeBody
    else if statusCode == 401 then RejectUnauthorized
    else RejectStatus(statusCode)
  }

  /** `decoder.decode(T.self, from: data)`: data that is not JSON fails before any property is read. */
  function DecodeData<T>(body: Option<Json>, decode: Json -> Decoded<T>): Decoded<T> {
    match body
    case None => Err(DataCorrupted("The given data was not valid JSON."))
    case Some(v) => decode(v)
  }

  /** Everything `request` does after the session returns. */
  function Receive<T>(response: HttpResponse, decode: Json -> Decoded<T>): (r: Result<T, Thrown>)
    ensures response.TransportFailure? ==> r == Err(Other(Transport(response.description)))
    ensures response.NotHttp? ==> r == Err(Api(NetworkError(BadServerResponse)))
    ensures r.Ok? ==> response.Http? && 200 <= response.statusCode <= 299 && DecodeData(response.body, decode) == Ok(r.value)
    ensures response.Http? && 200 <= response.statusCode <= 299 && DecodeData(response.body, decode).Ok? ==>
      r == Ok(DecodeData(response.body, decode).value)
    ensures response.Http? && 200 <= response.statusCode <= 299 && DecodeData(response.body, decode).Err? ==>
      r == Err(Other(Decoding(DecodeData(response.body, decode).error)))
    ensures response.Http? && response.statusCode == 401 ==> r == Err(Api(Unauthorized))
    ensures response.Http? && Classify(response.statusCode).RejectStatus? ==> r == Err(Api(HttpError(response.statusCode)))
    ensures r.Err? && r.error.Api? ==> r.error.e.NetworkError? || r.error.e.HttpError? || r.error.e.Unauthorized?
  {
    match response
    case TransportFailure(description) => Err(Other(Transport(description)))
    case NotHttp => Err(Api(NetworkError(BadServerResponse)))
    case Http(statusCode, body) =>
      match Classify(statusCode)
      case DecodeBody =>
        (match DecodeData(body, decode)
         case Ok(x) => Ok(x)
         case Err(error) => Err(Other(Decoding(error))))
      case RejectUnauthorized => Err(Api(Unauthorized))
      case RejectStatus(code) => Err(Api(HttpError(code)))
  }

  /** A body that fails to decode on a 2xx response is thrown as the decoder's error, so it is caught as `.networkError`. */
  lemma DecodeFailureCaughtAsNetworkError<T>(statusCode: int, body: Option<Json>, decode: Json -> Decoded<T>)
    requires 200 <= statusCode <= 299 && DecodeData(body, decode).Err?
    ensures var r := Receive(Http(statusCode, body), decode);
      r.Err? && Caught(r.error) == NetworkError(Decoding(DecodeData(body, decode).error))
  {
  }

  /** The headers `request` sets: always the content type, and the bearer token exactly when there is one. */
  function Headers(token: Option<string>): (h: map<string, string>)
    ensures "Content-Type" in h && h["Content-Type"] == "application/json"
    ensures "Authorization" in h <==> token.Some?
    ensures token.Some? ==> h["Authorization"] == "Bearer " + token.value
    ensures forall k :: k in h ==> k == "Content-Type" || k == "Authorization"
  {
    var h := map["Content-Type" := "application/json"];
    if token.Some? then h["Authorization" := "Bearer " + token.value] else h
  }

  /** A request as it leaves the client. */
  datatype Outgoing = Outgoing(url: Url, headers: map<string, string>)

  /** `URLRequest`: a URL fixed at creation and header fields set one at a time. */
  class URLRequest {
    const url: Url
    var headers: map<string, string>

    constructor(url: Url)
      ensures this.url == url && headers == map[]
    {
      this.url := url;
      headers := map[];
    }

    /** `setValue(_:forHTTPHeaderField:)`: sets one field, replacing any earlier value. */
    method SetValue(value: string, field: string)
      modifies this
      ensures headers == old(headers)[field := value]
    {
      headers := headers[field := value];
    }

    function Snapshot(): Outgoing
      reads this
    {
      Outgoing(url, headers)
    }
  }

  /** One round trip for `e`: the request the client sends, and what it makes of the answer. */
  function Exchange<T>(e: Endpoint, token: Option<string>, session: Outgoing -> HttpResponse, decode: Json -> Decoded<T>): Result<T, Thrown> {
    Receive(session(Outgoing(EndpointUrl(e), Headers(token))), decode)
  }

  // Decoders for the envelopes, as `request` is instantiated by each `fetch*`.

  function SubmoltsResponseDecoder(formats: DateFormats): Json -> Decoded<SubmoltsResponse> {
    v => DecodeSubmoltsResponse(v, formats)
  }

  function PostsResponseDecoder(formats: DateFormats): Json -> Decoded<PostsResponse> {
    v => DecodePostsResponse(v, formats)
  }

  function PostDetailResponseDecoder(formats: DateFormats): Json -> Decoded<PostDetailResponse> {
    v => DecodePostDetailResponse(v, formats)
  }

  function SearchResponseDecoder(formats: DateFormats): Json -> Decoded<SearchResponse> {
    v => DecodeSearchResponse(v, formats)
  }

  function AgentProfileResponseDecoder(formats: DateFormats): Json -> Decoded<AgentProfileResponse> {
    v => DecodeAgentProfileResponse(v, formats)
  }

  const DefaultSort: string := "hot"
  const DefaultLimit: int := 25

  /** `APIClient`; its decoder's date strategy is fixed by the two formats it was built with. */
  class APIClient {
    const formats: DateFormats

    constructor(formats: DateFormats)
      ensures this.formats == formats
    {
      this.formats := formats;
    }

    /** `request(_:)`: builds the request, sends it, and classifies the answer. */
    method Request<T>(e: Endpoint, token: Option<string>, session: Outgoing -> HttpResponse, decode: Json -> Decoded<T>)
      returns (r: Result<T, Thrown>)
      ensures r == Exchange(e, token, session, decode)
    {
      var request := new URLRequest(EndpointUrl(e));
      request.SetValue("application/json", "Content-Type");
      if token.Some? {
        request.SetValue("Bearer " + token.value, "Authorization");
      }
      assert request.headers == Headers(token);
      var response := session(request.Snapshot());
      r := Receive(response, decode);
    }

    method FetchSubmolts(token: Option<string>, session: Outgoing -> HttpResponse) returns (r: Result<seq<Submolt>, Thrown>)
      ensures var full := Exchange(Endpoint.Submolts, token, session, SubmoltsResponseDecoder(formats));
        && (r.Ok? <==> full.Ok?)
        && (r.Ok? ==> r.value == full.value.submolts)
        && (r.Err? ==> r.error == full.error)
    {
      var response := Request(Endpoint.Submolts, token, session, SubmoltsResponseDecoder(formats));
      match response
      case Ok(envelope) => r := Ok(envelope.submolts);
      case Err(thrown) => r := Err(thrown);
    }

    /** The global feed, by default the 25 hottest posts. */
    method FetchGlobalFeed(token: Option<string>, session: Outgoing -> HttpResponse, sort: string := DefaultSort, limit: int := DefaultLimit)
      returns (r: Result<seq<Post>, Thrown>)
      ensures var full := Exchange(GlobalFeed(sort, limit), token, session, PostsResponseDecoder(formats));
        && (r.Ok? <==> full.Ok?)
        && (r.Ok? ==> r.value == full.value.posts)
        && (r.Err? ==> r.error == full.error)
    {
      var response := Request(GlobalFeed(sort, limit), token, session, PostsResponseDecoder(formats));
      match response
      case Ok(envelope) => r := Ok(envelope.posts);
      case Err(thrown) => r := Err(thrown);
    }

    method FetchSubmoltFeed(name: string, token: Option<string>, session: Outgoing -> HttpResponse) returns (r: Result<seq<Post>, Thrown>)
      ensures var full := Exchange(SubmoltFeed(name), token, session, PostsResponseDecoder(formats));
        && (r.Ok? <==> full.Ok?)
        && (r.Ok? ==> r.value == full.value.posts)
        && (r.Err? ==> r.error == full.error)
    {
      var response := Request(SubmoltFeed(name), token, session, PostsResponseDecoder(formats));
      match response
      case Ok(envelope) => r := Ok(envelope.posts);
      case Err(thrown) => r := Err(thrown);
    }

    method FetchPostDetail(id: string, token: Option<string>, session: Outgoing -> HttpResponse) returns (r: Result<PostDetailResponse, Thrown>)
      ensures r == Exchange(PostDetail(id), token, session, PostDetailResponseDecoder(formats))
    {
      r := Request(PostDetail(id), token, session, PostDetailResponseDecoder(formats));
    }

    method Search(query: string, token: Option<string>, session: Outgoing -> HttpResponse) returns (r: Result<SearchResponse, Thrown>)
      ensures r == Exchange(Endpoint.Search(query), token, session, SearchResponseDecoder(formats))
    {
      r := Request(Endpoint.Search(query), token, session, SearchResponseDecoder(formats));
    }

    method FetchAgentProfile(name: string, token: Option<string>, session: Outgoing -> HttpResponse) returns (r: Result<AgentProfileResponse, Thrown>)
      ensures r == Exchange(Endpoint.AgentProfile(name), token, session, AgentProfileResponseDecoder(formats))
    {
      r := Request(Endpoint.AgentProfile(name), token, session, AgentProfileResponseDecoder(formats));
    }
  }

  /** A feed answered with `"success": false` still yields its posts: the flag is decoded and never consulted. */
  lemma SuccessFlagIgnored(o: map<string, Json>, formats: DateFormats)
    requires DecodePostsResponse(JObject(o), formats).Ok?
    ensures DecodePostsResponse(JObject(o["success" := JBool(false)]), formats).Ok?
    ensures DecodePostsResponse(JObject(o["success" := JBool(false)]), formats).value.posts == DecodePostsResponse(JObject(o), formats).value.posts
  {
    var o' := o["success" := JBool(false)];
    assert Required(o', "posts", PostListDecoder(formats)) == Required(o, "posts", PostListDecoder(formats));
  }
}
