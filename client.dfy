/**
 * The decision logic of `GraphClient` in msgraph_async/client/client.py.
 *
 * The network, the scheduler and the clock are not modelled: each reply the
 * server would give is a parameter, the refresh job the scheduler would run
 * is recorded as a value, and the expiration timestamp of a subscription is
 * given as text. Names the client imports from modules outside this model
 * (the base URL, the API version, the resource segments, the next-link key
 * and the table from status codes to exception classes) are parameters too.
 */
module Client {
  import opened Results
  import opened Text
  import opened Dicts
  import opened OData
  import opened Http
  import opened Paging

  /** Python truthiness of an optional string: None and "" are both falsy. */
  predicate Given(s: Option<string>) {
    s.Some? && s.value != ""
  }

  // ---------------------------------------------------------------- headers

  /** `_build_auth_header`'s value: a token already starting with "bearer" (in any case) is kept, any other gets the prefix. */
  function AuthValue(token: string): string {
    if HasPrefix(Lower(token), "bearer") then token else "bearer " + token
  }

  function AuthHeader(token: string): Dict {
    [("authorization", AuthValue(token))]
  }

  lemma BearerPrefixed(t: string)
    ensures HasPrefix(Lower("bearer " + t), "bearer")
  {
    LowerAppend("bearer ", t);
    assert Lower("bearer ") == "bearer ";
    assert (Lower("bearer ") + Lower(t))[..6] == "bearer";
  }

  /** The header value always starts with "bearer", and is the token itself exactly when the token already did. */
  lemma AuthValueShape(t: string)
    ensures HasPrefix(Lower(AuthValue(t)), "bearer")
    ensures AuthValue(t) == t <==> HasPrefix(Lower(t), "bearer")
    ensures AuthValue(t) != t ==> AuthValue(t) == "bearer " + t
  {
    if !HasPrefix(Lower(t), "bearer") {
      BearerPrefixed(t);
      assert |AuthValue(t)| == |t| + 7;
    }
  }

  /** Building the header from its own value changes nothing. */
  lemma AuthValueIdempotent(t: string)
    ensures AuthValue(AuthValue(t)) == AuthValue(t)
  {
    AuthValueShape(t);
  }

  const JSON_CONTENT: Dict := [("Content-type", "application/json")]

  /** The headers `authorized` passes on: authorization, then the content type, then the caller's headers over both. */
  function AuthorizedHeaders(token: string, extra: Dict): Dict {
    var h := Update(AuthHeader(token), JSON_CONTENT);
    if extra != [] then Update(h, extra) else h
  }

  /** Caller headers take precedence; otherwise the content type and the authorization header are present. */
  lemma HeaderPrecedence(token: string, extra: Dict, k: string)
    requires UniqueKeys(extra)
    ensures Get(AuthorizedHeaders(token, extra), k) ==
      if k in Keys(extra) then Get(extra, k)
      else if k == "Content-type" then Some("application/json")
      else if k == "authorization" then Some(AuthValue(token))
      else None
  {
    var h := Update(AuthHeader(token), JSON_CONTENT);
    UpdateGet(AuthHeader(token), JSON_CONTENT, k);
    if extra != [] {
      UpdateGet(h, extra, k);
    }
  }

  /** The authorization header comes first and the content type second, whatever the caller adds. */
  lemma HeaderOrder(token: string, extra: Dict)
    ensures |Keys(AuthorizedHeaders(token, extra))| >= 2
    ensures Keys(AuthorizedHeaders(token, extra))[..2] == ["authorization", "Content-type"]
    ensures UniqueKeys(AuthorizedHeaders(token, extra))
  {
    var h := Update(AuthHeader(token), JSON_CONTENT);
    assert Put(AuthHeader(token), "Content-type", "application/json")
      == [("authorization", AuthValue(token)), ("Content-type", "application/json")];
    assert h == [("authorization", AuthValue(token)), ("Content-type", "application/json")];
    UpdateKeys(h, extra);
    UpdateUnique(h, extra);
  }

  // ---------------------------------------------------------------- URLs

  /** A resource segment and, when its id is truthy, `/id`. */
  function Segment(r: (string, Option<string>)): string {
    r.0 + if Given(r.1) then "/" + r.1.value else ""
  }

  /** The resource segments, in order. */
  function ResourcePath(resources: seq<(string, Option<string>)>): string
    decreases |resources|
  {
    if resources == [] then "" else ResourcePath(resources[..|resources| - 1]) + Segment(resources[|resources| - 1])
  }

  /** The path of a concatenation is the concatenation of the paths. */
  lemma {:induction false} ResourcePathAppend(a: seq<(string, Option<string>)>, b: seq<(string, Option<string>)>)
    ensures ResourcePath(a + b) == ResourcePath(a) + ResourcePath(b)
    decreases |b|
  {
    if b == [] {
      assert a + b == a;
    } else {
      var b' := b[..|b| - 1];
      assert (a + b)[..|a + b| - 1] == a + b';
      ResourcePathAppend(a, b');
    }
  }

  /** What `_build_url` yields: base, version, the resources, then the query's text when a query is given. */
  function UrlOf(base: string, version: string, resources: seq<(string, Option<string>)>, query: Option<QueryView>)
    : Result<string, QueryError>
  {
    var path := base + version + ResourcePath(resources);
    if query.None? then Ok(path)
    else
      match Serialize(query.value)
      case Err(e) => Err(e)
      case Ok(q) => Ok(path + q)
  }

  /** `_build_url`: appends each resource in turn, and the query's string form last. */
  method BuildUrl(base: string, version: string, resources: seq<(string, Option<string>)>, query: ODataQuery?)
    returns (r: Result<string, QueryError>)
    ensures r == UrlOf(base, version, resources, if query == null then None else Some(query.View()))
  {
    var url := base + version;
    for i := 0 to |resources|
      invariant url == base + version + ResourcePath(resources[..i])
    {
      var (resource, id) := resources[i];
      url := url + resource;
      if Given(id) {
        url := url + "/" + id.value;
      }
      assert resources[..i + 1][..i] == resources[..i];
    }
    assert resources[..|resources|] == resources;
    if query != null {
      var q := query.ToString();
      if q.Err? {
        return Err(q.error);
      }
      url := url + q.value;
    }
    return Ok(url);
  }

  /** A query object is always appended, so one with nothing set appends the sentinel. */
  lemma UnsetQueryAppendsSentinel(base: string, version: string, resources: seq<(string, Option<string>)>, q: QueryView)
    requires !AnySet(q)
    ensures UrlOf(base, version, resources, Some(q)) == Ok(base + version + ResourcePath(resources) + EMPTY_QUERY)
  {
  }

  /** The mail listing of one user: `users/<id>` then the mail segment. */
  lemma UserMailsPath(users: string, id: string, mails: string)
    requires id != ""
    ensures ResourcePath([(users, Some(id)), (mails, None)]) == users + "/" + id + mails
  {
    var rs := [(users, Some(id)), (mails, None)];
    assert rs[..1] == [(users, Some(id))];
    assert rs[..1][..0] == [];
    assert ResourcePath(rs[..1]) == users + ("/" + id);
    assert Segment(rs[1]) == mails;
    assert ResourcePath(rs) == ResourcePath(rs[..1]) + Segment(rs[1]);
    assert users + ("/" + id) + mails == users + "/" + id + mails;
  }

  // ---------------------------------------------------------------- tokens

  /** One request as the client would send it. */
  datatype Call = Call(verb: string, url: string, headers: Dict, body: Dict)

  const TOKEN_SCOPE := "https://graph.microsoft.com/.default"

  /** The request `acquire_token` sends for the client-credentials grant. */
  function AcquireTokenCall(appId: string, appSecret: string, tenantId: string): (c: Call)
    ensures c.verb == "POST" && c.headers == []
    ensures c.url == "https://login.microsoftonline.com/" + tenantId + "/oauth2/v2.0/token"
    ensures UniqueKeys(c.body) && Keys(c.body) == ["grant_type", "scope", "client_id", "client_secret"]
  {
    var body := [
      ("grant_type", "client_credentials"), ("scope", TOKEN_SCOPE), ("client_id", appId), ("client_secret", appSecret)];
    assert Keys(body) == ["grant_type", "scope", "client_id", "client_secret"];
    Call("POST", "https://login.microsoftonline.com/" + tenantId + "/oauth2/v2.0/token", [], body)
  }

  /** The form fields of that request: the grant type, the Graph scope and the application's credentials. */
  lemma AcquireTokenFields(appId: string, appSecret: string, tenantId: string)
    ensures var body := AcquireTokenCall(appId, appSecret, tenantId).body;
      && Get(body, "grant_type") == Some("client_credentials") && Get(body, "scope") == Some(TOKEN_SCOPE)
      && Get(body, "client_id") == Some(appId) && Get(body, "client_secret") == Some(appSecret)
  {
    var body := AcquireTokenCall(appId, appSecret, tenantId).body;
    GetAt(body, 0);
    GetAt(body, 1);
    GetAt(body, 2);
    GetAt(body, 3);
  }

  /** `content['access_token']` of a token response, which must be a string. */
  function TokenOf(p: Payload): Result<string, ClientError> {
    if p.Structured? && p.json.JObject? && "access_token" in p.json.fields && p.json.fields["access_token"].JStr?
    then Ok(p.json.fields["access_token"].s)
    else Err(BadContent("access_token"))
  }

  /** The token a reply to `AcquireTokenCall` yields, or what taking it raises. */
  function AcquiredToken(reply: Reply, errorMap: map<int, string>): Result<string, ClientError> {
    match Receive(reply, None, errorMap)
    case Err(e) => Err(e)
    case Ok(r) => TokenOf(r.0)
  }

  /** A successful token reply: an accepted status, a JSON object, and its `access_token` string. */
  lemma AcquiredTokenOk(reply: Reply, errorMap: map<int, string>)
    ensures AcquiredToken(reply, errorMap).Ok? <==>
      ReadBody(reply).Ok? && reply.status in {200, 201, 204} && TokenOf(ReadBody(reply).value).Ok?
  {
    if ReadBody(reply).Ok? {
      DefaultStatuses(reply, None, errorMap);
    }
  }

  /** The interval job `manage_token` registers: refresh with these credentials every `seconds`. */
  datatype RefreshJob = RefreshJob(appId: string, appSecret: string, tenantId: string, seconds: int)

  // ---------------------------------------------------------------- subscriptions

  /** The `resource` of a subscription: a path as given, or a named template that takes a user id. */
  datatype SubscriptionResource =
    | Path(path: string)
    | Template(name: string, before: string, after: string)   // the template text around its one `{}` field

  const DEFAULT_CLIENT_STATE := "secretClientValue"

  const SUBSCRIPTION_KEYS := ["changeType", "notificationUrl", "resource", "expirationDateTime", "clientState"]

  const NOT_AUTHORIZED := "Token is not managed so you must explicitly provide it"
  const ALREADY_MANAGED := "Token is already managed"
  const BAD_INTERVAL := "refresh interval must be between 60 and 3600 seconds"

  function UserIdMissing(template: string): string {
    "user id must be specified with resource template (" + template + ")"
  }

  /** `GraphClient`: the token it holds, whether it refreshes that token itself, and how often. */
  class GraphClient {
    var token: Option<string>
    var managed: bool
    var interval: int
    var job: Option<RefreshJob>

    /** The interval stays in range, and a refresh job is registered exactly when the token is managed. */
    ghost predicate Valid()
      reads this
    {
      60 <= interval <= 3600
      && (managed <==> job.Some?)
      && (managed ==> token.Some? && 60 <= job.value.seconds <= 3600)
    }

    constructor ()
      ensures token == None && !managed && interval == 3300 && job == None
      ensures Valid()
    {
      token, managed, interval, job := None, false, 3300, None;
    }

    /** The `token_refresh_interval_sec` setter: 60 to 3600 seconds inclusive, or an error and no change. */
    method SetRefreshInterval(value: int) returns (r: Outcome<ClientError>)
      requires Valid()
      modifies this
      ensures r == if 60 <= value <= 3600 then Pass else Fail(ClientError.ValueError(BAD_INTERVAL))
      ensures interval == if r.Pass? then value else old(interval)
      ensures token == old(token) && managed == old(managed) && job == old(job)
      ensures Valid()
    {
      if value < 60 || value > 3600 {
        return Fail(ClientError.ValueError(BAD_INTERVAL));
      }
      interval := value;
      return Pass;
    }

    /** `_refresh_token`, given the reply to `AcquireTokenCall`: the token is replaced only when one was obtained. */
    method RefreshToken(reply: Reply, errorMap: map<int, string>) returns (r: Outcome<ClientError>)
      requires Valid()
      modifies this
      ensures r == match AcquiredToken(reply, errorMap) case Ok(_) => Pass case Err(e) => Fail(e)
      ensures token == if r.Pass? then Some(AcquiredToken(reply, errorMap).value) else old(token)
      ensures managed == old(managed) && interval == old(interval) && job == old(job)
      ensures Valid()
    {
      var t := AcquiredToken(reply, errorMap);
      if t.Err? {
        return Fail(t.error);
      }
      token := Some(t.value);
      return Pass;
    }

    /**
     * `manage_token`, given the reply to `AcquireTokenCall(appId, appSecret, tenantId)`:
     * refuses when already managed; otherwise takes the token and registers
     * the refresh job, or, when that fails, raises the failure wrapped and
     * stays unmanaged.
     */
    method ManageToken(appId: string, appSecret: string, tenantId: string, reply: Reply, errorMap: map<int, string>)
      returns (r: Outcome<ClientError>)
      requires Valid()
      modifies this
      ensures old(managed) ==>
        r == Fail(GraphClientError(ALREADY_MANAGED)) && token == old(token) && managed && job == old(job)
      ensures !old(managed) && AcquiredToken(reply, errorMap).Err? ==>
        r == Fail(Wrapped(AcquiredToken(reply, errorMap).error)) && token == old(token) && !managed && job == None
      ensures !old(managed) && AcquiredToken(reply, errorMap).Ok? ==>
        r == Pass && token == Some(AcquiredToken(reply, errorMap).value) && managed
        && job == Some(RefreshJob(appId, appSecret, tenantId, old(interval)))
      ensures interval == old(interval)
      ensures Valid()
    {
      if managed {
        return Fail(GraphClientError(ALREADY_MANAGED));
      }
      var refreshed := RefreshToken(reply, errorMap);
      if refreshed.Fail? {
        return Fail(Wrapped(refreshed.error));
      }
      job := Some(RefreshJob(appId, appSecret, tenantId, interval));
      managed := true;
      return Pass;
    }

    /** The token a request uses: an explicit truthy one first, else the client's. */
    function ChosenToken(explicit: Option<string>): Option<string>
      reads this
    {
      if Given(explicit) then explicit else if Given(token) then token else None
    }

    /**
     * The `authorized` decorator: raises when neither the client nor the
     * caller has a token, and otherwise builds the request headers by
     * updating the authorization header with the content type and then with
     * the caller's headers.
     */
    method Authorize(explicit: Option<string>, extra: Dict) returns (r: Result<Dict, ClientError>)
      ensures r.Err? <==> !Given(token) && !Given(explicit)
      ensures r.Err? ==> r.error == Raised(NOT_AUTHORIZED)
      ensures r.Ok? ==> ChosenToken(explicit).Some? && r.value == AuthorizedHeaders(ChosenToken(explicit).value, extra)
    {
      if !Given(token) && !Given(explicit) {
        return Err(Raised(NOT_AUTHORIZED));
      }
      var t := if Given(explicit) then explicit.value else token.value;
      var headers := AuthHeader(t);
      headers := Update(headers, JSON_CONTENT);
      if extra != [] {
        headers := Update(headers, extra);
      }
      return Ok(headers);
    }

    /**
     * `create_subscription`: the request it sends. It raises before sending
     * when not authorized, or when a template resource comes without a user id.
     */
    method CreateSubscription(
      base: string, version: string, subscriptions: string,
      changeType: string, notificationUrl: string, resource: SubscriptionResource, expiration: string,
      clientState: Option<string>, tlsVersion: Option<string>, userId: Option<string>,
      explicit: Option<string>, extra: Dict)
      returns (r: Result<Call, ClientError>)
      ensures !Given(token) && !Given(explicit) ==> r == Err(Raised(NOT_AUTHORIZED))
      ensures (Given(token) || Given(explicit)) && resource.Template? && !Given(userId) ==>
        r == Err(GraphClientError(UserIdMissing(resource.name)))
      ensures (Given(token) || Given(explicit)) && (resource.Path? || Given(userId)) ==> r.Ok?
      ensures r.Ok? ==>
        && ChosenToken(explicit).Some?
        && r.value.verb == "POST"
        && r.value.url == base + version + subscriptions
        && r.value.headers == AuthorizedHeaders(ChosenToken(explicit).value, extra)
        && IsSubscriptionBody(r.value.body, changeType, notificationUrl,
             if resource.Path? then resource.path else resource.before + userId.value + resource.after,
             expiration, clientState, tlsVersion)
    {
      var headers := Authorize(explicit, extra);
      if headers.Err? {
        return Err(headers.error);
      }
      var res: string;
      if resource.Template? {
        if !Given(userId) {
          return Err(GraphClientError(UserIdMissing(resource.name)));
        }
        res := resource.before + userId.value + resource.after;
      } else {
        res := resource.path;
      }
      var url := BuildUrl(base, version, [(subscriptions, None)], null);
      assert ResourcePath([(subscriptions, None)]) == subscriptions by {
        var rs: seq<(string, Option<string>)> := [(subscriptions, None)];
        assert rs[..0] == [];
      }
      var body := SubscriptionBody(changeType, notificationUrl, res, expiration, clientState, tlsVersion);
      return Ok(Call("POST", url.value, headers.value, body));
    }

    /**
     * The walk of `list_all_users` and `list_all_user_mails` after the first
     * URL is known: each reply is read with the expected statuses and turned
     * into a page, and the walk goes on while a page names a next link.
     */
    method CollectPages(
      first: string, replies: seq<Reply>, expected: Option<seq<int>>, errorMap: map<int, string>, nextKey: string)
      returns (f: Fetched)
      requires Ends(Fetches(replies, expected, errorMap, nextKey))
      ensures f == Crawl(Fetches(replies, expected, errorMap, nextKey), first)
    {
      ghost var ps := Fetches(replies, expected, errorMap, nextKey);
      FetchesEach(replies, expected, errorMap, nextKey);
      var page := Fetch(replies[0], expected, errorMap, nextKey);
      if page.Err? {
        return Fetched([], [first], Some(page.error));
      }
      var items := page.value.items;
      var urls := [first];
      var next := page.value.next;
      var i := 1;
      if next.Some? {
        assert ps[1..] == ps[i..];
      }
      while next.Some?
        invariant 1 <= i <= |replies|
        invariant next.Some? ==> Ends(ps[i..]) && Crawl(ps, first) == Combine(items, urls, Crawl(ps[i..], next.value))
        invariant next.None? ==> Crawl(ps, first) == Fetched(items, urls, None)
        decreases |replies| - i
      {
        var url := next.value;
        CrawlStep(ps, i, url, items, urls);
        urls := urls + [url];
        page := Fetch(replies[i], expected, errorMap, nextKey);
        if page.Err? {
          return Fetched(items, urls, Some(page.error));
        }
        items := items + page.value.items;
        next := page.value.next;
        i := i + 1;
      }
      return Fetched(items, urls, None);
    }

    /**
     * `list_all_users` and `list_all_user_mails`: authorize, build the first
     * URL from `resources` and the query, then follow the pages with the
     * same headers. Raising before the first request yields nothing.
     */
    method ListAll(
      base: string, version: string, resources: seq<(string, Option<string>)>, query: ODataQuery?,
      explicit: Option<string>, extra: Dict,
      replies: seq<Reply>, expected: Option<seq<int>>, errorMap: map<int, string>, nextKey: string)
      returns (r: Result<Fetched, ClientError>, headers: Dict)
      requires Ends(Fetches(replies, expected, errorMap, nextKey))
      ensures !Given(token) && !Given(explicit) ==> r == Err(Raised(NOT_AUTHORIZED))
      ensures Given(token) || Given(explicit) ==>
        ChosenToken(explicit).Some? && headers == AuthorizedHeaders(ChosenToken(explicit).value, extra)
        && r == match UrlOf(base, version, resources, if query == null then None else Some(query.View()))
                case Err(e) => Err(Query(e))
                case Ok(url) => Ok(Crawl(Fetches(replies, expected, errorMap, nextKey), url))
    {
      var h := Authorize(explicit, extra);
      if h.Err? {
        return Err(h.error), [];
      }
      headers := h.value;
      var url := BuildUrl(base, version, resources, query);
      if url.Err? {
        return Err(Query(url.error)), headers;
      }
      var f := CollectPages(url.value, replies, expected, errorMap, nextKey);
      return Ok(f), headers;
    }

    /** `list_all_users`: the pages of the users collection. */
    method ListAllUsers(
      base: string, version: string, users: string, query: ODataQuery?,
      explicit: Option<string>, extra: Dict,
      replies: seq<Reply>, expected: Option<seq<int>>, errorMap: map<int, string>, nextKey: string)
      returns (r: Result<Fetched, ClientError>, headers: Dict)
      requires Ends(Fetches(replies, expected, errorMap, nextKey))
      ensures !Given(token) && !Given(explicit) ==> r == Err(Raised(NOT_AUTHORIZED))
      ensures Given(token) || Given(explicit) ==>
        ChosenToken(explicit).Some? && headers == AuthorizedHeaders(ChosenToken(explicit).value, extra)
        && r == match UrlOf(base, version, [(users, None)], if query == null then None else Some(query.View()))
             case Err(e) => Err(Query(e))
             case Ok(url) => Ok(Crawl(Fetches(replies, expected, errorMap, nextKey), url))
    {
      r, headers := ListAll(base, version, [(users, None)], query, explicit, extra, replies, expected, errorMap, nextKey);
    }

    /** `list_all_user_mails`: the pages of one user's mail collection. */
    method ListAllUserMails(
      base: string, version: string, users: string, userId: Option<string>, mails: string, query: ODataQuery?,
      explicit: Option<string>, extra: Dict,
      replies: seq<Reply>, expected: Option<seq<int>>, errorMap: map<int, string>, nextKey: string)
      returns (r: Result<Fetched, ClientError>, headers: Dict)
      requires Ends(Fetches(replies, expected, errorMap, nextKey))
      ensures !Given(token) && !Given(explicit) ==> r == Err(Raised(NOT_AUTHORIZED))
      ensures Given(token) || Given(explicit) ==>
        ChosenToken(explicit).Some? && headers == AuthorizedHeaders(ChosenToken(explicit).value, extra)
        && r == match UrlOf(base, version, [(users, userId), (mails, None)], if query == null then None else Some(query.View()))
             case Err(e) => Err(Query(e))
             case Ok(url) => Ok(Crawl(Fetches(replies, expected, errorMap, nextKey), url))
    {
      r, headers := ListAll(
        base, version, [(users, userId), (mails, None)], query, explicit, extra, replies, expected, errorMap, nextKey);
    }
  }

  /** The five entries every subscription body starts with, the client state at its default. */
  function SubscriptionEntries(changeType: string, notificationUrl: string, res: string, expiration: string)
    : (body: Dict)
    ensures UniqueKeys(body) && Keys(body) == SUBSCRIPTION_KEYS
  {
    var body := [
      ("changeType", changeType), ("notificationUrl", notificationUrl), ("resource", res),
      ("expirationDateTime", expiration), ("clientState", DEFAULT_CLIENT_STATE)];
    assert Keys(body) == SUBSCRIPTION_KEYS;
    body
  }

  /**
   * The body `create_subscription` posts: the five required entries in
   * order, the client state replaced in place when one is given, and the
   * TLS version appended when one is given.
   */
  predicate IsSubscriptionBody(
    body: Dict, changeType: string, notificationUrl: string, res: string, expiration: string,
    clientState: Option<string>, tlsVersion: Option<string>)
  {
    && UniqueKeys(body)
    && |body| == (if Given(tlsVersion) then 6 else 5)
    && body[0] == ("changeType", changeType)
    && body[1] == ("notificationUrl", notificationUrl)
    && body[2] == ("resource", res)
    && body[3] == ("expirationDateTime", expiration)
    && body[4] == ("clientState", if Given(clientState) then clientState.value else DEFAULT_CLIENT_STATE)
    && (Given(tlsVersion) ==> body[5] == ("latestSupportedTlsVersion", tlsVersion.value))
  }

  /** Such a body has the required keys in order, then the TLS version's key when one was given. */
  lemma SubscriptionBodyKeys(
    body: Dict, changeType: string, notificationUrl: string, res: string, expiration: string,
    clientState: Option<string>, tlsVersion: Option<string>)
    requires IsSubscriptionBody(body, changeType, notificationUrl, res, expiration, clientState, tlsVersion)
    ensures Keys(body) == SUBSCRIPTION_KEYS + (if Given(tlsVersion) then ["latestSupportedTlsVersion"] else [])
  {
    var ks := SUBSCRIPTION_KEYS + (if Given(tlsVersion) then ["latestSupportedTlsVersion"] else []);
    assert forall i :: 0 <= i < |body| ==> Keys(body)[i] == ks[i];
  }

  /** What such a body gives for each required key. */
  lemma SubscriptionBodyGets(
    body: Dict, changeType: string, notificationUrl: string, res: string, expiration: string,
    clientState: Option<string>, tlsVersion: Option<string>)
    requires IsSubscriptionBody(body, changeType, notificationUrl, res, expiration, clientState, tlsVersion)
    ensures Get(body, "changeType") == Some(changeType)
    ensures Get(body, "notificationUrl") == Some(notificationUrl)
    ensures Get(body, "resource") == Some(res)
    ensures Get(body, "expirationDateTime") == Some(expiration)
    ensures Get(body, "clientState") == Some(if Given(clientState) then clientState.value else DEFAULT_CLIENT_STATE)
  {
    GetAt(body, 0);
    GetAt(body, 1);
    GetAt(body, 2);
    GetAt(body, 3);
    GetAt(body, 4);
  }

  /** Such a body carries a TLS version exactly when one was given. */
  lemma SubscriptionBodyTls(
    body: Dict, changeType: string, notificationUrl: string, res: string, expiration: string,
    clientState: Option<string>, tlsVersion: Option<string>)
    requires IsSubscriptionBody(body, changeType, notificationUrl, res, expiration, clientState, tlsVersion)
    ensures Get(body, "latestSupportedTlsVersion") == if Given(tlsVersion) then tlsVersion else None
  {
    if Given(tlsVersion) {
      GetAt(body, 5);
    } else {
      SubscriptionBodyKeys(body, changeType, notificationUrl, res, expiration, clientState, tlsVersion);
      assert "latestSupportedTlsVersion" !in SUBSCRIPTION_KEYS;
    }
  }

  /** `create_subscription`'s body built entry by entry, as the source's dict literal and item assignments do. */
  method SubscriptionBody(
    changeType: string, notificationUrl: string, res: string, expiration: string,
    clientState: Option<string>, tlsVersion: Option<string>)
    returns (body: Dict)
    ensures IsSubscriptionBody(body, changeType, notificationUrl, res, expiration, clientState, tlsVersion)
  {
    body := SubscriptionEntries(changeType, notificationUrl, res, expiration);
    if Given(clientState) {
      PutAt(body, 4, clientState.value);
      body := Put(body, "clientState", clientState.value);
    }
    if Given(tlsVersion) {
      assert "latestSupportedTlsVersion" !in SUBSCRIPTION_KEYS;
      PutNew(body, "latestSupportedTlsVersion", tlsVersion.value);
      AppendUnique(body, "latestSupportedTlsVersion", tlsVersion.value);
      body := Put(body, "latestSupportedTlsVersion", tlsVersion.value);
    }
  }

  /** One reply as a page: read with the expected statuses, then taken apart. */
  function Fetch(reply: Reply, expected: Option<seq<int>>, errorMap: map<int, string>, nextKey: string)
    : Result<Page, ClientError>
  {
    match Receive(reply, expected, errorMap)
    case Err(e) => Err(e)
    case Ok(r) => PageOf(r.0, nextKey)
  }

  /** The replies of a walk read as pages, one by one in request order. */
  function Fetches(replies: seq<Reply>, expected: Option<seq<int>>, errorMap: map<int, string>, nextKey: string)
    : seq<Result<Page, ClientError>>
    decreases |replies|
  {
    if replies == [] then [] else [Fetch(replies[0], expected, errorMap, nextKey)] + Fetches(replies[1..], expected, errorMap, nextKey)
  }

  /** The page of request `i` depends on reply `i` alone. */
  lemma {:induction false} FetchesAt(replies: seq<Reply>, expected: Option<seq<int>>, errorMap: map<int, string>, nextKey: string, i: nat)
    requires i < |replies|
    ensures |Fetches(replies, expected, errorMap, nextKey)| == |replies|
    ensures Fetches(replies, expected, errorMap, nextKey)[i] == Fetch(replies[i], expected, errorMap, nextKey)
    decreases |replies|
  {
    if i > 0 {
      FetchesAt(replies[1..], expected, errorMap, nextKey, i - 1);
    } else if |replies| > 1 {
      FetchesAt(replies[1..], expected, errorMap, nextKey, 0);
    }
  }

  /** Every page of the walk is its own reply read alone. */
  lemma FetchesEach(replies: seq<Reply>, expected: Option<seq<int>>, errorMap: map<int, string>, nextKey: string)
    ensures var ps := Fetches(replies, expected, errorMap, nextKey);
      |ps| == |replies| && forall i :: 0 <= i < |replies| ==> ps[i] == Fetch(replies[i], expected, errorMap, nextKey)
  {
    if replies != [] {
      FetchesAt(replies, expected, errorMap, nextKey, 0);
    }
    forall i | 0 <= i < |replies|
      ensures Fetches(replies, expected, errorMap, nextKey)[i] == Fetch(replies[i], expected, errorMap, nextKey)
    {
      FetchesAt(replies, expected, errorMap, nextKey, i);
    }
  }
}
