/**
 * The Device Server client: how an HTTP response becomes a value or a typed
 * error, how requests are built, the lookups over listed resources, and the
 * OAuth token lifecycle (password grant, section 4.3 of RFC 6749; refresh grant,
 * section 6 of RFC 6749; Bearer header, section 2.1 of RFC 6750).
 *
 * The network is a parameter: each request the client issues is answered by one
 * `Response` value given to the operation, and each operation returns the
 * requests it issued, in order.
 */
module DeviceServer {
  import opened Wrappers
  import opened JavaLang
  import opened Settings

  // ---------------------------------------------------------------- errors

  /** The DeviceServerException family. */
  datatype DsError = Unauthorized | NotFound | Conflict | Network | Parse | Unknown

  /** What a client action can throw: a DeviceServerException, or any other exception. */
  datatype Failure = DsFailure(error: DsError) | OtherFailure

  /** gson's decoding of a response body: a value, or a JsonSyntaxException. */
  datatype Decoded<T> = Parsed(value: T) | SyntaxError

  /** What the transport gives back for one request: a status and body, or an IOException. */
  datatype Response<T> = HttpResponse(code: int, body: Decoded<T>) | IoFailure

  predicate IsSuccess(code: int) { 200 <= code < 300 }

  /**
   * The error thrown for a status outside [200, 300): a status-specific error when one
   * stands for the code, Unknown otherwise; never a network or parse error.
   */
  function ErrorForStatus(code: int): (e: DsError)
    ensures e != Network && e != Parse
    ensures e == Unknown <==> code !in {401, 404, 409}
  {
    if code == 401 then Unauthorized
    else if code == 404 then NotFound
    else if code == 409 then Conflict
    else Unknown
  }

  /** The one status each status-specific error stands for. */
  function StatusOf(e: DsError): Option<int>
  {
    match e
    case Unauthorized => Some(401)
    case NotFound => Some(404)
    case Conflict => Some(409)
    case _ => None
  }

  /** The status mapping loses nothing for 401, 404 and 409 and sends every other status to Unknown. */
  lemma ErrorForStatusInverse(code: int)
    ensures StatusOf(ErrorForStatus(code)) == Some(code) <==> code in {401, 404, 409}
    ensures StatusOf(ErrorForStatus(code)).None? <==> ErrorForStatus(code) == Unknown
    ensures forall e :: StatusOf(e) == Some(code) ==> ErrorForStatus(code) == e
  {
  }

  /** `execute`: a 2xx response is decoded; anything else is a typed error. */
  function Execute<T>(resp: Response<T>): (r: Result<T, DsError>)
    ensures r.Ok? <==> resp.HttpResponse? && IsSuccess(resp.code) && resp.body.Parsed?
    ensures r.Ok? ==> r.value == resp.body.value
    ensures resp.HttpResponse? && IsSuccess(resp.code) && resp.body.SyntaxError? ==> r == Err(Parse)
    ensures resp.HttpResponse? && !IsSuccess(resp.code) ==> r == Err(ErrorForStatus(resp.code))
    ensures resp.IoFailure? ==> r == Err(Network)
  {
    match resp
    case IoFailure => Err(Network)
    case HttpResponse(code, body) =>
      if IsSuccess(code) then
        match body
        case Parsed(v) => Ok(v)
        case SyntaxError => Err(Parse)
      else Err(ErrorForStatus(code))
  }

  /** `Runner.call`: a DeviceServerException passes through, any other exception becomes Unknown. */
  function RunnerCall<T>(o: Result<T, Failure>): (r: Result<T, DsError>)
    ensures o.Ok? <==> r.Ok?
    ensures o.Ok? ==> r.value == o.value
    ensures o.Err? && o.error.DsFailure? ==> r.error == o.error.error
    ensures o.Err? && o.error.OtherFailure? ==> r.error == Unknown
  {
    match o
    case Ok(v) => Ok(v)
    case Err(DsFailure(e)) => Err(e)
    case Err(OtherFailure) => Err(Unknown)
  }

  /** An `execute` result inside a client action: its error is a thrown DeviceServerException. */
  function Thrown<T>(r: Result<T, DsError>): Result<T, Failure>
  {
    match r
    case Ok(v) => Ok(v)
    case Err(e) => Err(DsFailure(e))
  }

  // ---------------------------------------------------------------- requests

  datatype Body = NoBody | FormBody(fields: seq<(string, string)>) | JsonBody(json: string)

  /** An OkHttp request; `tag` is the "needs authorization" flag. */
  datatype Request = Request(url: string, httpMethod: string, headers: seq<(string, string)>, body: Body, tag: bool)

  /** The text appended to a URL for query parameters: `key=value&` per entry, in order. */
  function QueryString(query: seq<(string, string)>): string
  {
    if |query| == 0 then ""
    else QueryString(query[..|query| - 1]) + query[|query| - 1].0 + "=" + query[|query| - 1].1 + "&"
  }

  /** The query text of two lists of entries is the two texts one after the other. */
  lemma {:induction false} QueryStringConcat(p: seq<(string, string)>, q: seq<(string, string)>)
    ensures QueryString(p + q) == QueryString(p) + QueryString(q)
    decreases |q|
  {
    if |q| == 0 {
      assert p + q == p;
    } else {
      var q' := q[..|q| - 1];
      assert (p + q)[..|p + q| - 1] == p + q';
      QueryStringConcat(p, q');
    }
  }

  lemma QueryStringOfTwo(query: seq<(string, string)>)
    requires |query| == 2
    ensures QueryString(query) == query[0].0 + "=" + query[0].1 + "&" + query[1].0 + "=" + query[1].1 + "&"
  {
    var first := query[..1];
    assert query[..|query| - 1] == first;
    assert first[..|first| - 1] == [];
    assert QueryString(first) == query[0].0 + "=" + query[0].1 + "&";
  }

  /** The URL of a paged listing. */
  lemma PageQueryUrl(href: string, startIndex: string, pageSize: string)
    ensures href + "?" + QueryString([("startIndex", startIndex), ("pageSize", pageSize)])
         == href + "?startIndex=" + startIndex + "&pageSize=" + pageSize + "&"
  {
    QueryStringOfTwo([("startIndex", startIndex), ("pageSize", pageSize)]);
  }

  /**
   * `buildRequest`. Query entries are appended in the order given; form parameters
   * take precedence over a raw JSON body; the tag is the authorization flag.
   */
  method BuildRequest(url: string, query: Option<seq<(string, string)>>, httpMethod: string,
                      headers: Option<seq<(string, string)>>, params: Option<seq<(string, string)>>,
                      rawData: Option<string>, needAuthorization: bool)
    returns (req: Request)
    ensures req.url == if query.Some? then url + "?" + QueryString(query.value) else url
    ensures req.body == if params.Some? then FormBody(params.value)
                        else if rawData.Some? then JsonBody(rawData.value) else NoBody
    ensures req.httpMethod == httpMethod && req.headers == headers.GetOr([])
    ensures req.tag == needAuthorization
  {
    var u := url;
    if query.Some? {
      u := u + "?";
      var i := 0;
      while i < |query.value|
        invariant 0 <= i <= |query.value|
        invariant u == url + "?" + QueryString(query.value[..i])
      {
        var entry := query.value[i];
        assert query.value[..i + 1][..i] == query.value[..i];
        u := u + entry.0 + "=" + entry.1 + "&";
        i := i + 1;
      }
      assert query.value[..i] == query.value;
    }
    var body := if params.Some? then FormBody(params.value)
                else if rawData.Some? then JsonBody(rawData.value) else NoBody;
    req := Request(u, httpMethod, headers.GetOr([]), body, needAuthorization);
  }

  /** Headers other than those named `name`. */
  function WithoutHeader(headers: seq<(string, string)>, name: string): (r: seq<(string, string)>)
    ensures forall i :: 0 <= i < |r| ==> r[i].0 != name
    ensures forall h :: h in headers && h.0 != name ==> h in r
    ensures forall h :: h in r ==> h in headers
  {
    if |headers| == 0 then []
    else (if headers[0].0 == name then [] else [headers[0]]) + WithoutHeader(headers[1..], name)
  }

  /** `newBuilder().header(name, value)`: the header is set to one value, replacing any earlier one. */
  function SetHeader(req: Request, name: string, value: string): Request
  {
    req.(headers := WithoutHeader(req.headers, name) + [(name, value)])
  }

  /** `newBuilder().addHeader(name, value)`: one more value is added, earlier ones are kept. */
  function AddHeader(req: Request, name: string, value: string): Request
  {
    req.(headers := req.headers + [(name, value)])
  }

  /** After `header(name, value)` the request carries exactly one `name` header, with that value. */
  lemma SetHeaderSingle(req: Request, name: string, value: string)
    ensures var hs := SetHeader(req, name, value).headers;
      |hs| > 0 && hs[|hs| - 1] == (name, value)
      && (forall i :: 0 <= i < |hs| - 1 ==> hs[i].0 != name)
      && SetHeader(req, name, value).url == req.url && SetHeader(req, name, value).body == req.body
  {
  }

  /** The value of the Authorization header for a Bearer token (section 2.1 of RFC 6750). */
  function Bearer(token: string): string { "Bearer " + token }

  const AUTHORIZATION: string := "Authorization"

  // ---------------------------------------------------------------- resources

  datatype IdpResult = IdpResult(key: string, secret: string, name: string)
  datatype OauthToken = OauthToken(accessToken: string, refreshToken: string, expiresIn: int)
  /** A hypermedia document: its links, by relation. */
  datatype Api = Api(links: map<string, string>)
  datatype Client = Client(name: string, links: map<string, string>)
  datatype ObjectType = ObjectType(objectTypeId: string, links: map<string, string>)

  const IDP_URL: string := "https://developer-id.flowcloud.systems"

  /** The identity-provider exchange of an OpenID id_token. */
  function IdpRequest(idToken: string): Request
  {
    Request(IDP_URL, "POST", [], FormBody([("id_token", idToken)]), false)
  }

  /** A GET of a resource with no body. */
  function GetRequest(url: string, needAuthorization: bool): Request
  {
    Request(url, "GET", [], NoBody, needAuthorization)
  }

  /** The password grant (section 4.3 of RFC 6749) with the identity provider's key and secret. */
  function PasswordGrant(href: string, idp: IdpResult): Request
  {
    Request(href, "POST", [], FormBody([("username", idp.key), ("password", idp.secret), ("grant_type", "password")]), false)
  }

  /** The refresh grant (section 6 of RFC 6749). */
  function RefreshGrant(href: string, refreshToken: string): Request
  {
    Request(href, "POST", [], FormBody([("refresh_token", refreshToken), ("grant_type", "refresh_token")]), false)
  }

  /** `saveAccessToken`'s expiry: now plus the token lifetime, in milliseconds. */
  function ExpiryTime(now: int, token: OauthToken): int
  {
    now + 1000 * token.expiresIn
  }

  /** The first position whose client has the given name. */
  function FirstClientNamed(clients: seq<Client>, name: string): (k: Option<nat>)
    ensures k.Some? ==> k.value < |clients| && clients[k.value].name == name
    ensures k.Some? ==> forall j :: 0 <= j < k.value ==> clients[j].name != name
    ensures k.None? ==> forall j :: 0 <= j < |clients| ==> clients[j].name != name
  {
    if |clients| == 0 then None
    else if clients[0].name == name then Some(0)
    else match FirstClientNamed(clients[1..], name)
      case None => None
      case Some(j) => Some(j + 1)
  }

  /** The first position whose object type has the given ID string. */
  function FirstObjectTypeWithId(types: seq<ObjectType>, id: string): (k: Option<nat>)
    ensures k.Some? ==> k.value < |types| && types[k.value].objectTypeId == id
    ensures k.Some? ==> forall j :: 0 <= j < k.value ==> types[j].objectTypeId != id
    ensures k.None? ==> forall j :: 0 <= j < |types| ==> types[j].objectTypeId != id
  {
    if |types| == 0 then None
    else if types[0].objectTypeId == id then Some(0)
    else match FirstObjectTypeWithId(types[1..], id)
      case None => None
      case Some(j) => Some(j + 1)
  }

  /** The search loop of `getClientInternal`: the first client with that name, else NotFound. */
  method FindClient(clients: seq<Client>, name: string) returns (r: Result<Client, Failure>)
    ensures r.Ok? <==> FirstClientNamed(clients, name).Some?
    ensures r.Ok? ==> r.value == clients[FirstClientNamed(clients, name).value]
    ensures r.Err? ==> r.error == DsFailure(NotFound)
  {
    var i := 0;
    while i < |clients|
      invariant 0 <= i <= |clients|
      invariant forall j :: 0 <= j < i ==> clients[j].name != name
    {
      if clients[i].name == name {
        return Ok(clients[i]);
      }
      i := i + 1;
    }
    return Err(DsFailure(NotFound));
  }

  /** The search loop of the instance operations: the first object type whose ID is `Integer.toString(objectId)`. */
  method FindObjectType(types: seq<ObjectType>, objectId: int) returns (r: Result<ObjectType, Failure>)
    ensures r.Ok? <==> FirstObjectTypeWithId(types, IntToString(objectId)).Some?
    ensures r.Ok? ==> r.value == types[FirstObjectTypeWithId(types, IntToString(objectId)).value]
    ensures r.Err? ==> r.error == DsFailure(NotFound)
  {
    var id := IntToString(objectId);
    var i := 0;
    while i < |types|
      invariant 0 <= i <= |types|
      invariant forall j :: 0 <= j < i ==> types[j].objectTypeId != id
    {
      if types[i].objectTypeId == id {
        return Ok(types[i]);
      }
      i := i + 1;
    }
    return Err(DsFailure(NotFound));
  }

  /** A found object type's ID is the decimal text of exactly the requested number. */
  lemma FoundObjectTypeIsRequested(types: seq<ObjectType>, objectId: int, other: int)
    requires FirstObjectTypeWithId(types, IntToString(objectId)).Some?
    requires types[FirstObjectTypeWithId(types, IntToString(objectId)).value].objectTypeId == IntToString(other)
    ensures other == objectId
  {
    IntToStringInjective(objectId, other);
  }

  /** The `rel` link of a resource; a missing link dereferences null, which is not a DeviceServerException. */
  function Link(links: map<string, string>, rel: string): Result<string, Failure>
  {
    if rel in links then Ok(links[rel]) else Err(OtherFailure)
  }

  /** `clientsInternal`: the API root, then one page of its `clients` link. */
  method ClientsInternal(deviceServerUrl: string, startIndex: int, pageSize: int,
                         apiResp: Response<Api>, clientsResp: Response<seq<Client>>)
    returns (r: Result<seq<Client>, Failure>, sent: seq<Request>)
    ensures |sent| >= 1 && sent[0] == GetRequest(deviceServerUrl, true)
    ensures Execute(apiResp).Err? ==> r == Err(DsFailure(Execute(apiResp).error)) && |sent| == 1
    ensures Execute(apiResp).Ok? && "clients" !in Execute(apiResp).value.links ==> r == Err(OtherFailure) && |sent| == 1
    ensures Execute(apiResp).Ok? && "clients" in Execute(apiResp).value.links ==>
      sent == [GetRequest(deviceServerUrl, true),
               GetRequest(Execute(apiResp).value.links["clients"] + "?startIndex=" + IntToString(startIndex)
                          + "&pageSize=" + IntToString(pageSize) + "&", true)]
      && r == Thrown(Execute(clientsResp))
  {
    var req := BuildRequest(deviceServerUrl, None, "GET", None, None, None, true);
    sent := [req];
    var api := Execute(apiResp);
    if api.Err? {
      return Err(DsFailure(api.error)), sent;
    }
    var href := Link(api.value.links, "clients");
    if href.Err? {
      return Err(href.error), sent;
    }
    var query := [("startIndex", IntToString(startIndex)), ("pageSize", IntToString(pageSize))];
    PageQueryUrl(href.value, IntToString(startIndex), IntToString(pageSize));
    req := BuildRequest(href.value, Some(query), "GET", None, None, None, true);
    sent := sent + [req];
    r := Thrown(Execute(clientsResp));
  }

  /** `getClientInternal`: one page of 1000 clients from index 0, then the first with the name. */
  method GetClientInternal(deviceServerUrl: string, name: string,
                           apiResp: Response<Api>, clientsResp: Response<seq<Client>>)
    returns (r: Result<Client, Failure>, sent: seq<Request>)
    ensures |sent| >= 1 && sent[0] == GetRequest(deviceServerUrl, true)
    ensures Execute(apiResp).Err? ==> r == Err(DsFailure(Execute(apiResp).error)) && |sent| == 1
    ensures Execute(apiResp).Ok? && "clients" !in Execute(apiResp).value.links ==> r == Err(OtherFailure) && |sent| == 1
    ensures Execute(apiResp).Ok? && "clients" in Execute(apiResp).value.links ==>
      |sent| == 2 && sent[1].url == Execute(apiResp).value.links["clients"] + "?startIndex=0&pageSize=1000&"
    ensures Execute(apiResp).Ok? && "clients" in Execute(apiResp).value.links && Execute(clientsResp).Err? ==>
      r == Err(DsFailure(Execute(clientsResp).error))
    ensures Execute(apiResp).Ok? && "clients" in Execute(apiResp).value.links && Execute(clientsResp).Ok? ==>
      var clients := Execute(clientsResp).value;
      var k := FirstClientNamed(clients, name);
      (k.None? ==> r == Err(DsFailure(NotFound))) && (k.Some? ==> r == Ok(clients[k.value]))
    ensures r.Ok? ==> Execute(clientsResp).Ok? && r.value.name == name && r.value in Execute(clientsResp).value
  {
    var page;
    page, sent := ClientsInternal(deviceServerUrl, 0, 1000, apiResp, clientsResp);
    assert IntToString(0) == "0" && IntToString(1000) == "1000";
    if page.Err? {
      return Err(page.error), sent;
    }
    r := FindClient(page.value, name);
  }

  /** The objecttypes request of the instance operations: one page of up to 1000 types. */
  function ObjectTypesRequest(client: Client): Request
    requires "objecttypes" in client.links
  {
    GetRequest(client.links["objecttypes"] + "?pageSize=1000", true)
  }

  /** `getInstancesInternal`: find the object type, then GET its `instances` link. */
  method GetInstancesInternal<T>(client: Client, objectId: int,
                                 typesResp: Response<seq<ObjectType>>, instancesResp: Response<seq<T>>)
    returns (r: Result<seq<T>, Failure>, sent: seq<Request>)
    ensures "objecttypes" !in client.links ==> r == Err(OtherFailure) && sent == []
    ensures "objecttypes" in client.links ==> |sent| >= 1 && sent[0] == ObjectTypesRequest(client)
    ensures "objecttypes" in client.links && Execute(typesResp).Err?
            ==> r == Err(DsFailure(Execute(typesResp).error)) && |sent| == 1
    ensures "objecttypes" in client.links && Execute(typesResp).Ok? ==>
      var types := Execute(typesResp).value;
      var k := FirstObjectTypeWithId(types, IntToString(objectId));
      (k.None? ==> r == Err(DsFailure(NotFound)) && |sent| == 1)
      && (k.Some? && "instances" !in types[k.value].links ==> r == Err(OtherFailure) && |sent| == 1)
      && (k.Some? && "instances" in types[k.value].links ==>
            sent == [ObjectTypesRequest(client), GetRequest(types[k.value].links["instances"], true)]
            && r == Thrown(Execute(instancesResp)))
    ensures r.Ok? ==> |sent| == 2 && Execute(instancesResp).Ok? && r.value == Execute(instancesResp).value
  {
    sent := [];
    var typesHref := Link(client.links, "objecttypes");
    if typesHref.Err? {
      return Err(typesHref.error), sent;
    }
    var req := BuildRequest(typesHref.value + "?pageSize=1000", None, "GET", None, None, None, true);
    sent := [req];
    var types := Execute(typesResp);
    if types.Err? {
      return Err(DsFailure(types.error)), sent;
    }
    var found := FindObjectType(types.value, objectId);
    if found.Err? {
      return Err(found.error), sent;
    }
    var href := Link(found.value.links, "instances");
    if href.Err? {
      return Err(href.error), sent;
    }
    req := BuildRequest(href.value, None, "GET", None, None, None, true);
    sent := sent + [req];
    r := Thrown(Execute(instancesResp));
  }

  /** `updateInstanceInternal`: find the object type, then PUT the JSON to instances-href + "/" + instanceId. */
  method UpdateInstanceInternal(client: Client, objectId: int, instanceId: int, json: string,
                                typesResp: Response<seq<ObjectType>>, updateResp: Response<()>)
    returns (r: Result<(), Failure>, sent: seq<Request>)
    ensures "objecttypes" !in client.links ==> r == Err(OtherFailure) && sent == []
    ensures "objecttypes" in client.links ==> |sent| >= 1 && sent[0] == ObjectTypesRequest(client)
    ensures "objecttypes" in client.links && Execute(typesResp).Err?
            ==> r == Err(DsFailure(Execute(typesResp).error)) && |sent| == 1
    ensures "objecttypes" in client.links && Execute(typesResp).Ok? ==>
      var types := Execute(typesResp).value;
      var k := FirstObjectTypeWithId(types, IntToString(objectId));
      (k.None? ==> r == Err(DsFailure(NotFound)) && |sent| == 1)
      && (k.Some? && "instances" !in types[k.value].links ==> r == Err(OtherFailure) && |sent| == 1)
      && (k.Some? && "instances" in types[k.value].links ==>
            sent == [ObjectTypesRequest(client),
                     Request(types[k.value].links["instances"] + "/" + IntToString(instanceId), "PUT", [], JsonBody(json), true)]
            && r == Thrown(Execute(updateResp)))
    ensures r.Ok? ==> |sent| == 2 && Execute(updateResp).Ok?
  {
    sent := [];
    var typesHref := Link(client.links, "objecttypes");
    if typesHref.Err? {
      return Err(typesHref.error), sent;
    }
    var req := BuildRequest(typesHref.value + "?pageSize=1000", None, "GET", None, None, None, true);
    sent := [req];
    var types := Execute(typesResp);
    if types.Err? {
      return Err(DsFailure(types.error)), sent;
    }
    var found := FindObjectType(types.value, objectId);
    if found.Err? {
      return Err(found.error), sent;
    }
    var href := Link(found.value.links, "instances");
    if href.Err? {
      return Err(href.error), sent;
    }
    req := BuildRequest(href.value + "/" + IntToString(instanceId), None, "PUT", None, None, Some(json), true);
    sent := sent + [req];
    r := Thrown(Execute(updateResp));
  }

  /** `refreshToken`: the API root, then the refresh grant with the stored refresh token. */
  method RefreshTokenRequests(deviceServerUrl: string, storedRefreshToken: string,
                              apiResp: Response<Api>, tokenResp: Response<OauthToken>)
    returns (r: Result<OauthToken, Failure>, sent: seq<Request>)
    ensures |sent| >= 1 && sent[0] == GetRequest(deviceServerUrl, false)
    ensures r.Ok? <==> Execute(apiResp).Ok? && "authenticate" in Execute(apiResp).value.links && Execute(tokenResp).Ok?
    ensures r.Ok? ==> (
      r.value == Execute(tokenResp).value
      && sent == [GetRequest(deviceServerUrl, false), RefreshGrant(Execute(apiResp).value.links["authenticate"], storedRefreshToken)])
    ensures Execute(apiResp).Err? ==> r == Err(DsFailure(Execute(apiResp).error)) && |sent| == 1
    ensures Execute(apiResp).Ok? && "authenticate" !in Execute(apiResp).value.links ==> r == Err(OtherFailure) && |sent| == 1
    ensures Execute(apiResp).Ok? && "authenticate" in Execute(apiResp).value.links ==>
      sent == [GetRequest(deviceServerUrl, false), RefreshGrant(Execute(apiResp).value.links["authenticate"], storedRefreshToken)]
      && r == Thrown(Execute(tokenResp))
  {
    var req := BuildRequest(deviceServerUrl, None, "GET", None, None, None, false);
    sent := [req];
    var api := Execute(apiResp);
    if api.Err? {
      return Err(DsFailure(api.error)), sent;
    }
    var href := Link(api.value.links, "authenticate");
    if href.Err? {
      return Err(href.error), sent;
    }
    req := BuildRequest(href.value, None, "POST", None,
                        Some([("refresh_token", storedRefreshToken), ("grant_type", "refresh_token")]), None, false);
    sent := sent + [req];
    r := Thrown(Execute(tokenResp));
  }

  /** The refresh rule of the interceptor: the stored expiry is at least ten seconds in the past. */
  predicate NeedsRefresh(expiry: int, now: int)
  {
    expiry <= now - 10 * 1000
  }

  /**
   * The refresh rule allows ten seconds of grace after the expiry, and once a refresh is
   * due it stays due as time passes; a later expiry is never refreshed sooner.
   */
  lemma NeedsRefreshGrace(expiry: int, now: int, later: int, laterExpiry: int)
    ensures NeedsRefresh(expiry, now) <==> now >= expiry + 10 * 1000
    ensures NeedsRefresh(expiry, now) && now <= later ==> NeedsRefresh(expiry, later)
    ensures NeedsRefresh(laterExpiry, now) && expiry <= laterExpiry ==> NeedsRefresh(expiry, now)
  {
  }

  /** The client's token handling over the settings store. */
  class DsClient {
    const prefs: Preferences
    const deviceServerUrl: string

    constructor (prefs: Preferences, deviceServerUrl: string)
      ensures this.prefs == prefs && this.deviceServerUrl == deviceServerUrl
    {
      this.prefs := prefs;
      this.deviceServerUrl := deviceServerUrl;
    }

    /** `clearAccessToken`: access "", expiry 0, refresh "". */
    method ClearAccessToken()
      modifies prefs
      ensures prefs.store == WithTokens(old(prefs.store), "", 0, "")
      ensures prefs.AccessToken() == "" && prefs.AccessTokenExpiryTime() == 0 && prefs.RefreshToken() == ""
    {
      prefs.SetAccessToken("");
      prefs.SetAccessTokenExpiry(0);
      prefs.SetRefreshToken("");
    }

    /** `saveAccessToken`: the new tokens, expiring `expiresIn` seconds after `now`. */
    method SaveAccessToken(token: OauthToken, now: int)
      modifies prefs
      ensures prefs.store == WithTokens(old(prefs.store), token.accessToken, ExpiryTime(now, token), token.refreshToken)
      ensures prefs.AccessToken() == token.accessToken && prefs.RefreshToken() == token.refreshToken
      ensures prefs.AccessTokenExpiryTime() == now + 1000 * token.expiresIn
    {
      prefs.SetAccessToken(token.accessToken);
      prefs.SetAccessTokenExpiry(now + 1000 * token.expiresIn);
      prefs.SetRefreshToken(token.refreshToken);
    }

    /**
     * `login(token, rememberMe)`: exchange the OpenID id_token at the identity provider,
     * then make the password grant with its key and secret. The tokens are cleared first,
     * so a failed login leaves the client logged out.
     */
    method LoginWithIdToken(idToken: string, rememberMe: bool, now: int,
                            idpResp: Response<Option<IdpResult>>, apiResp: Response<Api>,
                            tokenResp: Response<OauthToken>)
      returns (r: Result<(), DsError>, sent: seq<Request>)
      modifies prefs
      ensures |sent| >= 1 && sent[0] == IdpRequest(idToken)
      ensures Execute(idpResp).Err? ==> r == Err(Execute(idpResp).error)
      ensures Execute(idpResp) == Ok(None) ==> r == Err(Unauthorized) && |sent| == 1
      ensures r.Ok? <==> Execute(idpResp).Ok? && Execute(idpResp).value.Some? && Execute(apiResp).Ok?
                         && "authenticate" in Execute(apiResp).value.links && Execute(tokenResp).Ok?
      ensures r.Ok? ==>
        var idp := Execute(idpResp).value.value;
        var token := Execute(tokenResp).value;
        sent == [IdpRequest(idToken), GetRequest(deviceServerUrl, false),
                 PasswordGrant(Execute(apiResp).value.links["authenticate"], idp)]
        && prefs.store == (var s := WithTokens(old(prefs.store), token.accessToken, ExpiryTime(now, token), token.refreshToken)[USER_NAME := Text(idp.name)];
                           if rememberMe then s[AUTOLOGIN := Flag(true)] else s)
      ensures r.Err? ==> prefs.store == WithTokens(old(prefs.store), "", 0, "")
      ensures (Execute(idpResp).Ok? && Execute(idpResp).value.Some? && Execute(apiResp).Err?) ==>
                r == Err(Execute(apiResp).error) && |sent| == 2
      ensures (Execute(idpResp).Ok? && Execute(idpResp).value.Some? && Execute(apiResp).Ok?
               && "authenticate" !in Execute(apiResp).value.links) ==> r == Err(Unknown) && |sent| == 2
      ensures (Execute(idpResp).Ok? && Execute(idpResp).value.Some? && Execute(apiResp).Ok?
               && "authenticate" in Execute(apiResp).value.links && Execute(tokenResp).Err?) ==>
                r == Err(Execute(tokenResp).error) && |sent| == 3
    {
      ClearAccessToken();
      var req := BuildRequest(IDP_URL, None, "POST", None, Some([("id_token", idToken)]), None, false);
      sent := [req];
      var idp := Execute(idpResp);
      if idp.Err? {
        return RunnerCall<()>(Err(DsFailure(idp.error))), sent;
      }
      if idp.value.None? {
        return RunnerCall<()>(Err(DsFailure(Unauthorized))), sent;
      }
      req := BuildRequest(deviceServerUrl, None, "GET", None, None, None, false);
      sent := sent + [req];
      var api := Execute(apiResp);
      if api.Err? {
        return RunnerCall<()>(Err(DsFailure(api.error))), sent;
      }
      var href := Link(api.value.links, "authenticate");
      if href.Err? {
        return RunnerCall<()>(Err(href.error)), sent;
      }
      var who := idp.value.value;
      req := BuildRequest(href.value, None, "POST", None,
                          Some([("username", who.key), ("password", who.secret), ("grant_type", "password")]), None, false);
      sent := sent + [req];
      var token := Execute(tokenResp);
      if token.Err? {
        return RunnerCall<()>(Err(DsFailure(token.error))), sent;
      }
      SaveAccessToken(token.value, now);
      WithTokensOverwrites(old(prefs.store), "", 0, "", token.value.accessToken, ExpiryTime(now, token.value), token.value.refreshToken);
      prefs.SaveUserName(who.name);
      if rememberMe {
        prefs.SetAutologin(true);
      }
      r := RunnerCall(Ok(()));
    }

    /**
     * `login()`: the refresh grant with the refresh token stored before the call; the
     * user name and autologin flag are not touched.
     */
    method LoginWithRefreshToken(now: int, apiResp: Response<Api>, tokenResp: Response<OauthToken>)
      returns (r: Result<(), DsError>, sent: seq<Request>)
      modifies prefs
      ensures r.Ok? <==> Execute(apiResp).Ok? && "authenticate" in Execute(apiResp).value.links && Execute(tokenResp).Ok?
      ensures r.Ok? ==>
        var token := Execute(tokenResp).value;
        sent == [GetRequest(deviceServerUrl, false),
                 RefreshGrant(Execute(apiResp).value.links["authenticate"], old(prefs.RefreshToken()))]
        && prefs.store == WithTokens(old(prefs.store), token.accessToken, ExpiryTime(now, token), token.refreshToken)
      ensures r.Err? ==> prefs.store == WithTokens(old(prefs.store), "", 0, "")
      ensures |sent| >= 1 && sent[0] == GetRequest(deviceServerUrl, false)
      ensures Execute(apiResp).Err? ==> r == Err(Execute(apiResp).error) && |sent| == 1
      ensures Execute(apiResp).Ok? && "authenticate" !in Execute(apiResp).value.links ==> r == Err(Unknown) && |sent| == 1
      ensures Execute(apiResp).Ok? && "authenticate" in Execute(apiResp).value.links && Execute(tokenResp).Err? ==>
                r == Err(Execute(tokenResp).error) && |sent| == 2
    {
      var stored := prefs.RefreshToken();
      ClearAccessToken();
      var outcome;
      outcome, sent := RefreshTokenRequests(deviceServerUrl, stored, apiResp, tokenResp);
      if outcome.Ok? {
        SaveAccessToken(outcome.value, now);
        r := RunnerCall(Ok(()));
      } else {
        r := RunnerCall<()>(Err(outcome.error));
      }
    }

    /**
     * `OAuthInterceptor.intercept`: a request tagged as needing authorization gets
     * "Authorization: Bearer <stored access token>", after a refresh when the stored
     * expiry is ten seconds or more in the past. Untagged requests pass unchanged.
     */
    method Intercept(req: Request, now: int, apiResp: Response<Api>, tokenResp: Response<OauthToken>)
      returns (r: Result<Request, Failure>, sent: seq<Request>)
      modifies prefs
      ensures !req.tag ==> r == Ok(req) && sent == [] && prefs.store == old(prefs.store)
      ensures req.tag && !NeedsRefresh(old(prefs.AccessTokenExpiryTime()), now) ==>
        sent == [] && prefs.store == old(prefs.store)
        && r == Ok(SetHeader(req, AUTHORIZATION, Bearer(old(prefs.AccessToken()))))
      ensures req.tag && NeedsRefresh(old(prefs.AccessTokenExpiryTime()), now) ==>
        |sent| >= 1 && sent[0] == GetRequest(deviceServerUrl, false)
        && (r.Ok? <==> Execute(apiResp).Ok? && "authenticate" in Execute(apiResp).value.links && Execute(tokenResp).Ok?)
        && (r.Ok? ==>
              var token := Execute(tokenResp).value;
              prefs.store == WithTokens(old(prefs.store), token.accessToken, ExpiryTime(now, token), token.refreshToken)
              && r.value == SetHeader(req, AUTHORIZATION, Bearer(token.accessToken)))
        && (r.Err? ==> prefs.store == old(prefs.store))
        && (Execute(apiResp).Err? ==> r == Err(DsFailure(Execute(apiResp).error)))
        && (Execute(apiResp).Ok? && "authenticate" !in Execute(apiResp).value.links ==> r == Err(OtherFailure))
        && (Execute(apiResp).Ok? && "authenticate" in Execute(apiResp).value.links && Execute(tokenResp).Err?
            ==> r == Err(DsFailure(Execute(tokenResp).error)))
    {
      sent := [];
      if !req.tag {
        return Ok(req), sent;
      }
      if NeedsRefresh(prefs.AccessTokenExpiryTime(), now) {
        var token;
        token, sent := RefreshTokenRequests(deviceServerUrl, prefs.RefreshToken(), apiResp, tokenResp);
        if token.Err? {
          return Err(token.error), sent;
        }
        SaveAccessToken(token.value, now);
      }
      r := Ok(SetHeader(req, AUTHORIZATION, Bearer(prefs.AccessToken())));
    }

    /**
     * `Authenticator1.authenticate` on a 401 challenge: unless the failed request's URL
     * contains "oauth", refresh, store the new tokens and retry with an added Bearer
     * header; for an oauth URL give up (null).
     */
    method Authenticate(failed: Request, now: int, apiResp: Response<Api>, tokenResp: Response<OauthToken>)
      returns (r: Result<Option<Request>, Failure>, sent: seq<Request>)
      modifies prefs
      ensures Contains(failed.url, "oauth") ==> r == Ok(None) && sent == [] && prefs.store == old(prefs.store)
      ensures !Contains(failed.url, "oauth") ==>
        |sent| >= 1 && sent[0] == GetRequest(deviceServerUrl, false)
        && (r.Ok? <==> Execute(apiResp).Ok? && "authenticate" in Execute(apiResp).value.links && Execute(tokenResp).Ok?)
        && (r.Ok? ==>
              var token := Execute(tokenResp).value;
              prefs.store == WithTokens(old(prefs.store), token.accessToken, ExpiryTime(now, token), token.refreshToken)
              && r.value == Some(AddHeader(failed, AUTHORIZATION, Bearer(token.accessToken))))
        && (r.Err? ==> prefs.store == old(prefs.store))
        && (Execute(apiResp).Err? ==> r == Err(DsFailure(Execute(apiResp).error)))
        && (Execute(apiResp).Ok? && "authenticate" !in Execute(apiResp).value.links ==> r == Err(OtherFailure))
        && (Execute(apiResp).Ok? && "authenticate" in Execute(apiResp).value.links && Execute(tokenResp).Err?
            ==> r == Err(DsFailure(Execute(tokenResp).error)))
    {
      sent := [];
      if Contains(failed.url, "oauth") {
        return Ok(None), sent;
      }
      var token;
      token, sent := RefreshTokenRequests(deviceServerUrl, prefs.RefreshToken(), apiResp, tokenResp);
      if token.Err? {
        return Err(token.error), sent;
      }
      prefs.SetAccessToken(token.value.accessToken);
      prefs.SetAccessTokenExpiry(now + 1000 * token.value.expiresIn);
      prefs.SetRefreshToken(token.value.refreshToken);
      r := Ok(Some(AddHeader(failed, AUTHORIZATION, Bearer(token.value.accessToken))));
    }
  }
}
