/**
 * pkg/clients/scim/connect.go: the SCIM client. It picks its authentication when it is
 * made, shapes every request's headers (section 8.1 of RFC 7644, Basic authentication of
 * section 2 of RFC 7617), chooses paths and methods, and wraps every failure under a
 * marker for the operation.
 */
module Scim {
  import opened Wrappers
  import opened Text
  import opened Errors
  import opened Base64
  import opened Filter
  import opened Http
  import opened HttpClient
  import opened Resources
  import opened Helpers
  import opened Configuration

  const ApplicationSCIMJson := "application/scim+json"
  const BasePathGroups := "/Groups"
  const BasePathUsers := "/Users"
  const PostSearchPath := ".search"
  const HeaderAuthorization := "Authorization"
  const HeaderContentType := "Content-Type"
  const HeaderAccept := "Accept"

  /** The API name DecodeResponse puts in its errors. */
  const ApiName := "SCIM"

  /** The loaded client id and secret, as bytes. */
  datatype BasicAuth = BasicAuth(clientID: Bytes, clientSecret: Bytes)

  /**
   * The library calls a request goes through: whether http.NewRequestWithContext refuses
   * a method and URL, json.Marshal of a search request, and JSON decoding of each
   * response type.
   */
  datatype Runtime = Runtime(
    requestError: (string, string) -> Option<Error>,
    marshal: Marshal,
    decodeUser: Bytes -> Result<User, Error>,
    decodeUserList: Bytes -> Result<UserList, Error>,
    decodeGroup: Bytes -> Result<Group, Error>,
    decodeGroupList: Bytes -> Result<GroupList, Error>)

  /** The methods that carry a body. */
  predicate HasBody(verb: string)
  {
    verb == MethodPost || verb == MethodPut || verb == MethodPatch
  }

  /** The bytes of clientID + ":" + clientSecret. */
  function BasicCredentials(auth: BasicAuth): Bytes
  {
    auth.clientID + [AsciiByte(':')] + auth.clientSecret
  }

  /**
   * The Authorization value: "Basic " and the unpadded base64 of the credentials, which
   * decodes back to exactly those bytes.
   */
  function AuthorizationValue(auth: BasicAuth): (v: string)
    ensures |v| >= 6 && v[..6] == "Basic "
    ensures DecodeRaw(v[6..]) == Some(BasicCredentials(auth))
    ensures '=' !in v[6..]
  {
    EncodeRawRoundTrip(BasicCredentials(auth));
    NoPadding(BasicCredentials(auth));
    var v := "Basic " + EncodeRaw(BasicCredentials(auth));
    assert v[6..] == EncodeRaw(BasicCredentials(auth));
    v
  }

  /**
   * The header after doRequest: Content-Type for a method with a body, Accept always,
   * Authorization when basic authentication is configured; any other entry is kept.
   */
  function RequestHeaders(header: Header, verb: string, basicAuth: Option<BasicAuth>): (r: Header)
    ensures HasBody(verb) ==> HeaderContentType in r && r[HeaderContentType] == ApplicationSCIMJson
    ensures !HasBody(verb) ==>
      (HeaderContentType in r <==> HeaderContentType in header)
      && (HeaderContentType in header ==> r[HeaderContentType] == header[HeaderContentType])
    ensures HeaderAccept in r && r[HeaderAccept] == ApplicationSCIMJson
    ensures basicAuth.Some? ==> HeaderAuthorization in r && r[HeaderAuthorization] == AuthorizationValue(basicAuth.value)
    ensures basicAuth.None? ==>
      (HeaderAuthorization in r <==> HeaderAuthorization in header)
      && (HeaderAuthorization in header ==> r[HeaderAuthorization] == header[HeaderAuthorization])
    ensures forall k :: k != HeaderContentType && k != HeaderAccept && k != HeaderAuthorization ==>
      (k in r <==> k in header) && (k in header ==> r[k] == header[k])
  {
    var withType := if HasBody(verb) then header[HeaderContentType := ApplicationSCIMJson] else header;
    var withAccept := withType[HeaderAccept := ApplicationSCIMJson];
    if basicAuth.Some? then withAccept[HeaderAuthorization := AuthorizationValue(basicAuth.value)]
    else withAccept
  }

  /**
   * On a new request (no header yet): Content-Type is present exactly for POST, PUT and
   * PATCH, Authorization exactly when basic authentication is configured, Accept always,
   * and nothing else.
   */
  lemma FreshRequestHeaders(verb: string, basicAuth: Option<BasicAuth>)
    ensures var r := RequestHeaders(map[], verb, basicAuth);
      (HeaderContentType in r <==> verb == MethodPost || verb == MethodPut || verb == MethodPatch)
      && (HeaderAuthorization in r <==> basicAuth.Some?)
      && HeaderAccept in r
      && forall k :: k in r ==> k == HeaderContentType || k == HeaderAccept || k == HeaderAuthorization
  {
  }

  /** How the client authenticates. */
  datatype AuthMode = BasicMode(basic: BasicAuth) | MutualTls(cert: Certificate)

  /**
   * The authentication NewClientFromAPI chooses. The client id is always loaded first; a
   * configured secret wins over MTLS; each loading failure has its own sentinel, and
   * with neither secret nor MTLS there is no client.
   */
  function SelectAuth(auth: Auth, loader: Loader): (r: Result<AuthMode, Error>)
    ensures r == Failure(Sentinel(ErrClientID)) <==> loader.loadValue(auth.credentials.clientID).Failure?
    ensures r == Failure(Sentinel(ErrClientSecret)) <==>
      loader.loadValue(auth.credentials.clientID).Success? && auth.credentials.clientSecret.Some?
      && loader.loadValue(auth.credentials.clientSecret.value).Failure?
    ensures r == Failure(Sentinel(ErrParsingClientCertificate)) <==>
      loader.loadValue(auth.credentials.clientID).Success? && auth.credentials.clientSecret.None?
      && auth.mtls.Some? && loader.loadCertificate(auth.mtls.value).Failure?
    ensures r == Failure(Sentinel(ErrHttpCreation)) <==>
      loader.loadValue(auth.credentials.clientID).Success? && auth.credentials.clientSecret.None?
      && auth.mtls.None?
    ensures r.Success? && r.value.BasicMode? ==>
      auth.credentials.clientSecret.Some?
      && loader.loadValue(auth.credentials.clientID) == Success(r.value.basic.clientID)
      && loader.loadValue(auth.credentials.clientSecret.value) == Success(r.value.basic.clientSecret)
    ensures r.Success? && r.value.MutualTls? ==>
      auth.credentials.clientSecret.None? && auth.mtls.Some?
      && loader.loadCertificate(auth.mtls.value) == Success(r.value.cert)
  {
    match loader.loadValue(auth.credentials.clientID)
    case Failure(_) => Failure(Sentinel(ErrClientID))
    case Success(clientId) =>
      if auth.credentials.clientSecret.Some? then
        match loader.loadValue(auth.credentials.clientSecret.value)
        case Failure(_) => Failure(Sentinel(ErrClientSecret))
        case Success(clientSecret) => Success(BasicMode(BasicAuth(clientId, clientSecret)))
      else if auth.mtls.Some? then
        match loader.loadCertificate(auth.mtls.value)
        case Failure(_) => Failure(Sentinel(ErrParsingClientCertificate))
        case Success(cert) => Success(MutualTls(cert))
      else
        Failure(Sentinel(ErrHttpCreation))
  }

  /** A secret, once configured, decides the mode: whatever MTLS says is never consulted. */
  lemma SecretWinsOverMtls(auth: Auth, loader: Loader, mtls: Option<MtlsRef>)
    requires auth.credentials.clientSecret.Some?
    ensures SelectAuth(auth, loader) == SelectAuth(auth.(mtls := mtls), loader)
    ensures SelectAuth(auth, loader).Success? ==> SelectAuth(auth, loader).value.BasicMode?
  {
  }

  /** Every failure of SelectAuth is exactly one of its four sentinels. */
  lemma SelectAuthFailures(auth: Auth, loader: Loader)
    requires SelectAuth(auth, loader).Failure?
    ensures var e := SelectAuth(auth, loader).error;
      e == Sentinel(ErrClientID) || e == Sentinel(ErrClientSecret)
      || e == Sentinel(ErrParsingClientCertificate) || e == Sentinel(ErrHttpCreation)
  {
  }

  /** What one client operation did: the requests it handed to the transport, and its result. */
  datatype Outcome<T> = Outcome(sent: seq<Outgoing>, result: Result<T, Error>)

  /** The resource path and method of a listing. */
  function ListPath(useHTTPPost: bool, basePath: string): string
  {
    if useHTTPPost then basePath + "/" + PostSearchPath else basePath + "/"
  }

  function ListVerb(useHTTPPost: bool): string
  {
    if useHTTPPost then MethodPost else MethodGet
  }

  /**
   * The end of GetUser, ListUsers, GetGroup and ListGroups: a failed request, or a
   * response that does not decode with status 200, is wrapped under the marker.
   */
  function Finish<T>(marker: Sentinel, o: Outcome<Response>, decode: Bytes -> Result<T, Error>): (r: Outcome<T>)
    ensures r.sent == o.sent
    ensures r.result.Failure? ==> r.result.error.Wrap? && r.result.error.base == Sentinel(marker)
    ensures r.result.Failure? && o.result.Failure? ==> r.result.error.ext == o.result.error
    ensures r.result.Failure? && o.result.Success? ==>
      DecodeResponse(ApiName, o.result.value, StatusOK, decode).Failure?
      && r.result.error.ext == DecodeResponse(ApiName, o.result.value, StatusOK, decode).error
    ensures r.result.Success? ==>
      o.result.Success? && DecodeResponse(ApiName, o.result.value, StatusOK, decode).Success?
      && r.result.value == DecodeResponse(ApiName, o.result.value, StatusOK, decode).value
    ensures r.result.Success? <==> o.result.Success? && DecodeResponse(ApiName, o.result.value, StatusOK, decode).Success?
  {
    match o.result
    case Failure(err) => Outcome(o.sent, Failure(Wrap(Sentinel(marker), err)))
    case Success(resp) =>
      match DecodeResponse(ApiName, resp, StatusOK, decode)
      case Failure(err) => Outcome(o.sent, Failure(Wrap(Sentinel(marker), err)))
      case Success(v) => Outcome(o.sent, Success(v))
  }

  /** The SCIM client: where it sends, how it authenticates, and its HTTP client. */
  class Client {
    const httpClient: Http.Client
    const scimHost: string
    const basicAuth: Option<BasicAuth>

    constructor(httpClient: Http.Client, scimHost: string, basicAuth: Option<BasicAuth>)
      ensures this.httpClient == httpClient && this.scimHost == scimHost && this.basicAuth == basicAuth
    {
      this.httpClient := httpClient;
      this.scimHost := scimHost;
      this.basicAuth := basicAuth;
    }

    /** makeAPIRequest, as a specification. */
    function ApiCall(rt: Runtime, verb: string, resourcePath: string, queryString: Option<Query>, body: Option<Bytes>)
      : Outcome<Response>
    {
      var url := scimHost + resourcePath;
      match rt.requestError(verb, url)
      case Some(err) => Outcome([], Failure(Prefixed("failed to create request", err)))
      case None =>
        var req := Outgoing(verb, url, queryString, RequestHeaders(map[], verb, basicAuth), body);
        match httpClient.roundTrip(httpClient.certificates, req)
        case Failure(err) => Outcome([req], Failure(Prefixed("failed to make request", err)))
        case Success(resp) => Outcome([req], Success(resp))
    }

    /** makeListRequest, as a specification. */
    function ListCall(
      rt: Runtime, useHTTPPost: bool, basePath: string,
      filter: Option<FilterExpr>, cursor: Option<string>, count: Option<int>
    ): Outcome<Response>
    {
      match BuildQueryStringAndBody(useHTTPPost, filter, cursor, count, rt.marshal)
      case Failure(err) => Outcome([], Failure(Prefixed("failed to build request", err)))
      case Success(parts) =>
        ApiCall(rt, ListVerb(useHTTPPost), ListPath(useHTTPPost, basePath), Some(parts.queryString), parts.body)
    }

    function GetUserCall(rt: Runtime, id: string): Outcome<User>
    {
      Finish(ErrGetUser, ApiCall(rt, MethodGet, BasePathUsers + "/" + id, None, None), rt.decodeUser)
    }

    function ListUsersCall(
      rt: Runtime, useHTTPPost: bool, filter: Option<FilterExpr>, cursor: Option<string>, count: Option<int>
    ): Outcome<UserList>
    {
      Finish(ErrListUsers, ListCall(rt, useHTTPPost, BasePathUsers, filter, cursor, count), rt.decodeUserList)
    }

    function GetGroupCall(rt: Runtime, id: string): Outcome<Group>
    {
      Finish(ErrGetGroup, ApiCall(rt, MethodGet, BasePathGroups + "/" + id, None, None), rt.decodeGroup)
    }

    function ListGroupsCall(
      rt: Runtime, useHTTPPost: bool, filter: Option<FilterExpr>, cursor: Option<string>, count: Option<int>
    ): Outcome<GroupList>
    {
      Finish(ErrListGroups, ListCall(rt, useHTTPPost, BasePathGroups, filter, cursor, count), rt.decodeGroupList)
    }

    /**
     * doRequest: sets the headers on the request in place, then hands it to the HTTP
     * client.
     */
    method DoRequest(req: Request) returns (r: Result<Response, Error>)
      modifies req, httpClient`sent
      ensures req.header == RequestHeaders(old(req.header), req.verb, basicAuth)
      ensures req.rawQuery == old(req.rawQuery)
      ensures httpClient.sent == old(httpClient.sent) + [req.Snapshot()]
      ensures r == httpClient.roundTrip(httpClient.certificates, req.Snapshot())
    {
      if req.verb == MethodPost || req.verb == MethodPut || req.verb == MethodPatch {
        req.header := req.header[HeaderContentType := ApplicationSCIMJson];
      }
      req.header := req.header[HeaderAccept := ApplicationSCIMJson];
      if basicAuth.Some? {
        var basicCreds := basicAuth.value.clientID + [AsciiByte(':')] + basicAuth.value.clientSecret;
        req.header := req.header[HeaderAuthorization := "Basic " + EncodeRaw(basicCreds)];
      }
      r := httpClient.Do(req);
    }

    /**
     * makeAPIRequest: makes the request (a refusal sends nothing), sets the raw query only
     * when one is supplied, and sends it.
     */
    method MakeAPIRequest(
      rt: Runtime, verb: string, resourcePath: string, queryString: Option<Query>, body: Option<Bytes>
    ) returns (r: Result<Response, Error>)
      modifies httpClient`sent
      ensures httpClient.sent == old(httpClient.sent) + ApiCall(rt, verb, resourcePath, queryString, body).sent
      ensures r == ApiCall(rt, verb, resourcePath, queryString, body).result
    {
      var requestError := rt.requestError(verb, scimHost + resourcePath);
      if requestError.Some? {
        return Failure(Prefixed("failed to create request", requestError.value));
      }
      var req := new Request(verb, scimHost + resourcePath, body);
      if queryString.Some? {
        req.rawQuery := queryString;
      }
      var resp := DoRequest(req);
      if resp.Failure? {
        return Failure(Prefixed("failed to make request", resp.error));
      }
      return resp;
    }

    /**
     * makeListRequest: GET on base + "/", or POST on base + "/.search"; the query string
     * and body come from the request builder, whose failure sends nothing.
     */
    method MakeListRequest(
      rt: Runtime, useHTTPPost: bool, basePath: string,
      filter: Option<FilterExpr>, cursor: Option<string>, count: Option<int>
    ) returns (r: Result<Response, Error>)
      modifies httpClient`sent
      ensures httpClient.sent == old(httpClient.sent) + ListCall(rt, useHTTPPost, basePath, filter, cursor, count).sent
      ensures r == ListCall(rt, useHTTPPost, basePath, filter, cursor, count).result
    {
      var resourcePath := basePath + "/";
      var verb := MethodGet;
      if useHTTPPost {
        resourcePath := resourcePath + PostSearchPath;
        verb := MethodPost;
      }
      var parts := BuildQueryStringAndBody(useHTTPPost, filter, cursor, count, rt.marshal);
      if parts.Failure? {
        return Failure(Prefixed("failed to build request", parts.error));
      }
      r := MakeAPIRequest(rt, verb, resourcePath, Some(parts.value.queryString), parts.value.body);
    }

    /** GetUser: GET /Users/<id>, decoded as a user; failures wrapped under ErrGetUser. */
    method GetUser(rt: Runtime, id: string) returns (r: Result<User, Error>)
      modifies httpClient`sent
      ensures httpClient.sent == old(httpClient.sent) + GetUserCall(rt, id).sent
      ensures r == GetUserCall(rt, id).result
    {
      var resourcePath := BasePathUsers + "/" + id;
      var resp := MakeAPIRequest(rt, MethodGet, resourcePath, None, None);
      if resp.Failure? {
        return Failure(Wrap(Sentinel(ErrGetUser), resp.error));
      }
      var user := DecodeResponse(ApiName, resp.value, StatusOK, rt.decodeUser);
      if user.Failure? {
        return Failure(Wrap(Sentinel(ErrGetUser), user.error));
      }
      return user;
    }

    /** ListUsers: a listing under /Users; failures wrapped under ErrListUsers. */
    method ListUsers(
      rt: Runtime, useHTTPPost: bool, filter: Option<FilterExpr>, cursor: Option<string>, count: Option<int>
    ) returns (r: Result<UserList, Error>)
      modifies httpClient`sent
      ensures httpClient.sent == old(httpClient.sent) + ListUsersCall(rt, useHTTPPost, filter, cursor, count).sent
      ensures r == ListUsersCall(rt, useHTTPPost, filter, cursor, count).result
    {
      var resp := MakeListRequest(rt, useHTTPPost, BasePathUsers, filter, cursor, count);
      if resp.Failure? {
        return Failure(Wrap(Sentinel(ErrListUsers), resp.error));
      }
      var users := DecodeResponse(ApiName, resp.value, StatusOK, rt.decodeUserList);
      if users.Failure? {
        return Failure(Wrap(Sentinel(ErrListUsers), users.error));
      }
      return users;
    }

    /** GetGroup: GET /Groups/<id>, decoded as a group; failures wrapped under ErrGetGroup. */
    method GetGroup(rt: Runtime, id: string) returns (r: Result<Group, Error>)
      modifies httpClient`sent
      ensures httpClient.sent == old(httpClient.sent) + GetGroupCall(rt, id).sent
      ensures r == GetGroupCall(rt, id).result
    {
      var resourcePath := BasePathGroups + "/" + id;
      var resp := MakeAPIRequest(rt, MethodGet, resourcePath, None, None);
      if resp.Failure? {
        return Failure(Wrap(Sentinel(ErrGetGroup), resp.error));
      }
      var group := DecodeResponse(ApiName, resp.value, StatusOK, rt.decodeGroup);
      if group.Failure? {
        return Failure(Wrap(Sentinel(ErrGetGroup), group.error));
      }
      return group;
    }

    /** ListGroups: a listing under /Groups; failures wrapped under ErrListGroups. */
    method ListGroups(
      rt: Runtime, useHTTPPost: bool, filter: Option<FilterExpr>, cursor: Option<string>, count: Option<int>
    ) returns (r: Result<GroupList, Error>)
      modifies httpClient`sent
      ensures httpClient.sent == old(httpClient.sent) + ListGroupsCall(rt, useHTTPPost, filter, cursor, count).sent
      ensures r == ListGroupsCall(rt, useHTTPPost, filter, cursor, count).result
    {
      var resp := MakeListRequest(rt, useHTTPPost, BasePathGroups, filter, cursor, count);
      if resp.Failure? {
        return Failure(Wrap(Sentinel(ErrListGroups), resp.error));
      }
      var groups := DecodeResponse(ApiName, resp.value, StatusOK, rt.decodeGroupList);
      if groups.Failure? {
        return Failure(Wrap(Sentinel(ErrListGroups), groups.error));
      }
      return groups;
    }
  }

  /**
   * Every failure of the four operations carries its operation's marker in the chain,
   * and its text starts with the marker's text.
   */
  lemma FailuresCarryMarker(
    c: Client, rt: Runtime, id: string, useHTTPPost: bool,
    filter: Option<FilterExpr>, cursor: Option<string>, count: Option<int>)
    ensures var r := c.GetUserCall(rt, id).result;
      r.Failure? ==> Is(r.error, ErrGetUser) && SentinelText(ErrGetUser) + ": " <= Message(r.error)
    ensures var r := c.ListUsersCall(rt, useHTTPPost, filter, cursor, count).result;
      r.Failure? ==> Is(r.error, ErrListUsers) && SentinelText(ErrListUsers) + ": " <= Message(r.error)
    ensures var r := c.GetGroupCall(rt, id).result;
      r.Failure? ==> Is(r.error, ErrGetGroup) && SentinelText(ErrGetGroup) + ": " <= Message(r.error)
    ensures var r := c.ListGroupsCall(rt, useHTTPPost, filter, cursor, count).result;
      r.Failure? ==> Is(r.error, ErrListGroups) && SentinelText(ErrListGroups) + ": " <= Message(r.error)
  {
    MarkerPrefix(ErrGetUser, c.GetUserCall(rt, id).result);
    MarkerPrefix(ErrListUsers, c.ListUsersCall(rt, useHTTPPost, filter, cursor, count).result);
    MarkerPrefix(ErrGetGroup, c.GetGroupCall(rt, id).result);
    MarkerPrefix(ErrListGroups, c.ListGroupsCall(rt, useHTTPPost, filter, cursor, count).result);
  }

  /**
   * What Finish wraps stays inspectable: a sentinel in the chain of the request error, or
   * of the decode error, is in the chain of the operation's error.
   */
  predicate KeepsCause<T>(o: Outcome<Response>, decode: Bytes -> Result<T, Error>, r: Result<T, Error>, s: Sentinel)
  {
    (o.result.Failure? && Is(o.result.error, s) ==> r.Failure? && Is(r.error, s))
    && (o.result.Success? && DecodeResponse(ApiName, o.result.value, StatusOK, decode).Failure?
        && Is(DecodeResponse(ApiName, o.result.value, StatusOK, decode).error, s)
        ==> r.Failure? && Is(r.error, s))
  }

  lemma FinishKeepsCause<T>(marker: Sentinel, o: Outcome<Response>, decode: Bytes -> Result<T, Error>, s: Sentinel)
    ensures KeepsCause(o, decode, Finish(marker, o, decode).result, s)
  {
    var r := Finish(marker, o, decode).result;
    if r.Failure? {
      WrapKeepsChain(r.error.base, r.error.ext, s);
    }
  }

  /**
   * For each of the four operations, every sentinel in the chain of the request error or
   * of the decode error is still in the chain of the error the operation returns.
   */
  lemma CausesStayInChain(
    c: Client, rt: Runtime, id: string, useHTTPPost: bool,
    filter: Option<FilterExpr>, cursor: Option<string>, count: Option<int>, s: Sentinel)
    ensures KeepsCause(c.ApiCall(rt, MethodGet, BasePathUsers + "/" + id, None, None), rt.decodeUser,
                       c.GetUserCall(rt, id).result, s)
    ensures KeepsCause(c.ListCall(rt, useHTTPPost, BasePathUsers, filter, cursor, count), rt.decodeUserList,
                       c.ListUsersCall(rt, useHTTPPost, filter, cursor, count).result, s)
    ensures KeepsCause(c.ApiCall(rt, MethodGet, BasePathGroups + "/" + id, None, None), rt.decodeGroup,
                       c.GetGroupCall(rt, id).result, s)
    ensures KeepsCause(c.ListCall(rt, useHTTPPost, BasePathGroups, filter, cursor, count), rt.decodeGroupList,
                       c.ListGroupsCall(rt, useHTTPPost, filter, cursor, count).result, s)
  {
    FinishKeepsCause(ErrGetUser, c.ApiCall(rt, MethodGet, BasePathUsers + "/" + id, None, None), rt.decodeUser, s);
    FinishKeepsCause(ErrListUsers, c.ListCall(rt, useHTTPPost, BasePathUsers, filter, cursor, count), rt.decodeUserList, s);
    FinishKeepsCause(ErrGetGroup, c.ApiCall(rt, MethodGet, BasePathGroups + "/" + id, None, None), rt.decodeGroup, s);
    FinishKeepsCause(ErrListGroups, c.ListCall(rt, useHTTPPost, BasePathGroups, filter, cursor, count), rt.decodeGroupList, s);
  }

  lemma MarkerPrefix<T>(marker: Sentinel, r: Result<T, Error>)
    requires r.Failure? ==> r.error.Wrap? && r.error.base == Sentinel(marker)
    ensures r.Failure? ==> Is(r.error, marker) && SentinelText(marker) + ": " <= Message(r.error)
  {
    if r.Failure? {
      assert Message(r.error) == SentinelText(marker) + ": " + Message(r.error.ext);
    }
  }

  /**
   * GetUser and GetGroup send at most one request: a GET of "/Users/<id>" or
   * "/Groups/<id>" on the host; RawQuery is never assigned and there is no body. It is sent exactly when
   * the request could be made.
   */
  lemma SingleResourceRequest(c: Client, rt: Runtime, id: string)
    ensures var sent := c.GetUserCall(rt, id).sent;
      (sent == [] <==> rt.requestError(MethodGet, c.scimHost + "/Users/" + id).Some?)
      && (sent != [] ==> sent == [Outgoing(MethodGet, c.scimHost + "/Users/" + id, None,
                                           RequestHeaders(map[], MethodGet, c.basicAuth), None)])
    ensures var sent := c.GetGroupCall(rt, id).sent;
      (sent == [] <==> rt.requestError(MethodGet, c.scimHost + "/Groups/" + id).Some?)
      && (sent != [] ==> sent == [Outgoing(MethodGet, c.scimHost + "/Groups/" + id, None,
                                           RequestHeaders(map[], MethodGet, c.basicAuth), None)])
  {
    assert BasePathUsers + "/" + id == "/Users/" + id;
    assert c.scimHost + (BasePathUsers + "/" + id) == c.scimHost + "/Users/" + id;
    assert BasePathGroups + "/" + id == "/Groups/" + id;
    assert c.scimHost + (BasePathGroups + "/" + id) == c.scimHost + "/Groups/" + id;
  }

  /**
   * A GET listing sends at most one request: a GET of base + "/" whose RawQuery is set to
   * the parameters, with no body and no Content-Type.
   */
  lemma ListRequestGet(
    c: Client, rt: Runtime, basePath: string,
    filter: Option<FilterExpr>, cursor: Option<string>, count: Option<int>)
    ensures var sent := c.ListCall(rt, false, basePath, filter, cursor, count).sent;
      |sent| <= 1
      && (sent != [] ==>
        sent[0].verb == "GET" && sent[0].url == c.scimHost + basePath + "/"
        && sent[0].rawQuery == Some(QueryFor(filter, cursor, count)) && sent[0].body == None
        && HeaderAccept in sent[0].header && HeaderContentType !in sent[0].header)
  {
    FreshRequestHeaders(MethodGet, c.basicAuth);
  }

  /**
   * A POST listing sends at most one request: a POST of base + "/.search" whose RawQuery
   * is set to the empty query, with Content-Type set, and the marshalled search document of a present filter
   * as body.
   */
  lemma ListRequestPost(
    c: Client, rt: Runtime, basePath: string,
    filter: Option<FilterExpr>, cursor: Option<string>, count: Option<int>)
    ensures var sent := c.ListCall(rt, true, basePath, filter, cursor, count).sent;
      |sent| <= 1
      && (sent != [] ==>
        sent[0].verb == "POST" && sent[0].url == c.scimHost + basePath + "/.search"
        && sent[0].rawQuery == Some(map[]) && HasFilter(filter) && sent[0].body.Some?
        && rt.marshal(SearchDocument(filter.value, count, cursor)) == Success(sent[0].body.value)
        && HeaderAccept in sent[0].header && HeaderContentType in sent[0].header)
  {
    assert c.scimHost + ListPath(true, basePath) == c.scimHost + basePath + "/.search";
  }

  /**
   * A POST listing without a filter is refused before anything is sent, and the error
   * carries both the operation's marker and ErrNoFilter.
   */
  lemma PostWithoutFilter(
    c: Client, rt: Runtime, filter: Option<FilterExpr>, cursor: Option<string>, count: Option<int>)
    requires !HasFilter(filter)
    ensures var o := c.ListUsersCall(rt, true, filter, cursor, count);
      o.sent == [] && o.result.Failure? && Is(o.result.error, ErrListUsers) && Is(o.result.error, ErrNoFilter)
    ensures var o := c.ListGroupsCall(rt, true, filter, cursor, count);
      o.sent == [] && o.result.Failure? && Is(o.result.error, ErrListGroups) && Is(o.result.error, ErrNoFilter)
  {
    var built := BuildQueryStringAndBody(true, filter, cursor, count, rt.marshal);
    assert built == Failure(Sentinel(ErrNoFilter));
  }

  /**
   * A listing of users answered with a status other than 200 fails with the text
   * "error listing SCIM users: invalid response from SCIM: unexpected status code <status>".
   */
  lemma UnexpectedStatusText(o: Outcome<Response>, decode: Bytes -> Result<UserList, Error>)
    requires o.result.Success? && o.result.value.statusCode != StatusOK
    ensures var r := Finish(ErrListUsers, o, decode).result;
      r.Failure? && Is(r.error, ErrUnexpectedStatusCode)
      && Message(r.error) == SentinelText(ErrListUsers) + ": " + InvalidResponse(ApiName) + ": "
                             + SentinelText(ErrUnexpectedStatusCode) + " " + o.result.value.status
  {
    var d := DecodeResponse(ApiName, o.result.value, StatusOK, decode);
    UnexpectedStatus(ApiName, o.result.value, StatusOK, decode);
    assert Finish(ErrListUsers, o, decode).result == Failure(Wrap(Sentinel(ErrListUsers), d.error));
  }

  /**
   * NewClientFromAPI: loads the client id, then builds a basic-authentication client
   * when a secret is configured, else an MTLS client when a certificate is configured.
   */
  method NewClientFromAPI(cfg: Config, loader: Loader, roundTrip: RoundTripper) returns (r: Result<Client, Error>)
    ensures r.Failure? <==> SelectAuth(cfg.auth, loader).Failure?
    ensures r.Failure? ==> r.error == SelectAuth(cfg.auth, loader).error
    ensures r.Success? ==>
      fresh(r.value) && fresh(r.value.httpClient)
      && r.value.scimHost == cfg.host
      && r.value.httpClient.roundTrip == roundTrip && r.value.httpClient.sent == []
      && match SelectAuth(cfg.auth, loader).value
         case BasicMode(basic) => r.value.basicAuth == Some(basic) && r.value.httpClient.certificates == []
         case MutualTls(cert) => r.value.basicAuth == None && r.value.httpClient.certificates == [cert]
  {
    var clientId := loader.loadValue(cfg.auth.credentials.clientID);
    if clientId.Failure? {
      return Failure(Sentinel(ErrClientID));
    }
    if cfg.auth.credentials.clientSecret.Some? {
      var clientSecret := loader.loadValue(cfg.auth.credentials.clientSecret.value);
      if clientSecret.Failure? {
        return Failure(Sentinel(ErrClientSecret));
      }
      var httpClient := new Http.Client([], roundTrip);
      var client := new Client(httpClient, cfg.host, Some(BasicAuth(clientId.value, clientSecret.value)));
      return Success(client);
    }
    if cfg.auth.mtls.Some? {
      var cert := loader.loadCertificate(cfg.auth.mtls.value);
      if cert.Failure? {
        return Failure(Sentinel(ErrParsingClientCertificate));
      }
      var httpClient := new Http.Client([cert.value], roundTrip);
      var client := new Client(httpClient, cfg.host, None);
      return Success(client);
    }
    return Failure(Sentinel(ErrHttpCreation));
  }
}
