# msgraph-async in Dafny

A model of the core of `msgraph_async`, an asyncio client for the Microsoft
Graph REST API, with proofs about that model.

- **The OData query builder** (`msgraph_async/common/odata_query.py`).
  - A `Constrain` renders an attribute, an operator and a value through the
    operator's format template.
  - A `Filter` holds an ordered list of constraints and one logical
    connector.
  - An `ODataQuery` holds the system query options `$count`, `$expand`,
    `$filter`, `$select` and `$top` (OData Version 4.01, Part 2: URL
    Conventions, section 5.1).
  - The query serialises to `?` followed by the options that are set,
    joined by `&` in that fixed order. When no option is set it serialises
    to the sentinel `EMPTY OPEN DATA QUERY`.
  - Every setter checks the type of its argument and raises `ValueError`
    otherwise.
- **The Graph client** (`msgraph_async/client/client.py`).
  - `GraphClient` keeps a token, a "managed" flag and a refresh interval.
  - The `authorized` decorator builds the request headers.
  - `_build_url` builds request URLs.
  - `_request` decides how each reply is read and whether it is accepted.
  - `acquire_token`, `_refresh_token` and `manage_token` obtain and keep
    the token.
  - `create_subscription` builds a subscription request.
  - `list_all_users` and `list_all_user_mails` follow pages through their
    next links.

The modules follow the program:

- `Results` holds `Option`, `Result` and `Outcome` (an operation that
  either passes or raises).
- `Text` holds the Python string operations the source uses (`lower`,
  `startswith`, `in`, `join` and `str(int)`), and also `split` and `int()`,
  which only the model's own reader in `QueryParse` uses.
- `Dicts` models a Python dict as its entries in insertion order, with
  `d[k] = v` as `Put` and `d.update(e)` as `Update`.
- `OData` holds the query classes.
- `QueryLaws` holds what serialising promises.
- `QueryParse` is an independent reader of the serialised text.
  `ParseSerialize` proves that reading back what `Serialize` wrote recovers
  every option that was set.
- `Http` holds the reply handling of `_request`.
- `Paging` holds the page walk.
- `Client` holds `GraphClient`.

The parts of the source that change state are Dafny classes whose methods
update their fields. Both `Filter` and `ODataQuery` are classes, and so is
`GraphClient`. The loops of the source are methods with loop invariants:

- the type check in the `constrains` and `select` setters;
- `_build_filter`;
- the resource loop of `_build_url`;
- the page walk.

Each method is proved against a function on values:

- `BuildFilter` is proved against `FilterText`.
- `ODataQuery.ToString` is proved against `Serialize` on `View()`.
- `BuildUrl` is proved against `UrlOf`.
- `CollectPages` is proved against `Crawl`.

I/O is not modelled:

- The reply to each request is a parameter.
- The job the scheduler would register is recorded as a field.
- The expiration timestamp is passed in as text.

Names the client imports from modules that are not part of this model are
also parameters: the base URL, the API version, the resource segments, the
next-link key and the status-to-exception table. Two facts about the code
are worth stating plainly:

- The interval setter does not check whether the token is managed
  (client.py:45-49). It accepts any value from 60 to 3600 at any time.
- `$count` is written only when count is true, always as `$count=true`
  (odata_query.py:146-147). A false count is left out.

## Model

| member | source | states |
|---|---|---|
| OData.FormatInfix | msgraph_async/common/odata_query.py:13-18 | Formatting an `{attribute} w {val}` template puts the attribute, the word and the value in that order, separated by single spaces. |
| OData.FormatCall | msgraph_async/common/odata_query.py:19-20 | Formatting an `f({attribute}, {val})` template gives `f(a, v)`. |
| OData.RenderShape | msgraph_async/common/odata_query.py:35-36 | `str(Constrain)` is `a op v` for the six comparison operators, and `startsWith(a, v)` or `endsWith(a, v)` for the two function operators. |
| OData.RenderNonEmpty | msgraph_async/common/odata_query.py:35-36 | A rendered constraint is never empty, so `_build_filter`'s `if res:` holds exactly after the first constraint. |
| OData.Filter.constructor | msgraph_async/common/odata_query.py:40-42 | A new filter has no constraints and no connector. |
| OData.Filter.SetConstrains | msgraph_async/common/odata_query.py:48-55 | A non-list raises "constrains must be list". A list with any element that is not a `Constrain` raises "all values must be constrains". In both cases nothing changes. Otherwise the list is stored as given. The connector is untouched. |
| OData.Filter.SetConnector | msgraph_async/common/odata_query.py:61-65 | Only a `LogicalConnector` is stored. Anything else raises and changes nothing. |
| OData.ODataQuery.constructor | msgraph_async/common/odata_query.py:69-74 | All five options start as None. |
| OData.ODataQuery.SetCount | msgraph_async/common/odata_query.py:81-85 | Only a bool is stored, and the other options are untouched. Anything else raises "count must be boolean". |
| OData.ODataQuery.SetExpand | msgraph_async/common/odata_query.py:92-96 | Only a string is stored. Anything else raises and changes nothing. |
| OData.ODataQuery.SetFilter | msgraph_async/common/odata_query.py:103-107 | Only a `Filter` object is stored. Anything else raises and changes nothing. |
| OData.ODataQuery.SetSelect | msgraph_async/common/odata_query.py:114-121 | A non-list raises one message. A list holding a non-string raises the other. In both cases nothing changes. Otherwise the strings are stored in order. |
| OData.ODataQuery.SetTop | msgraph_async/common/odata_query.py:128-132 | Only an int is stored; a bool is refused. Anything else raises and changes nothing. |
| OData.FilterTextSnoc | msgraph_async/common/odata_query.py:134-140 | Adding one constraint to text already produced puts the connector's word in between. When no connector is set, the whole filter raises. |
| OData.ODataQuery.BuildFilter | msgraph_async/common/odata_query.py:134-140 | The loop yields `FilterText`: the rendered constraints joined by the lower-cased connector between spaces. Two or more constraints without a connector raise. |
| OData.ODataQuery.ToString | msgraph_async/common/odata_query.py:142-157 | `__str__` yields `Serialize` of the query's state: the sentinel, or `?` and the present options in fixed order, or the filter's error. |
| QueryLaws.SentinelIffUnset | msgraph_async/common/odata_query.py:142-144 | The sentinel is returned if and only if count, expand, filter, select and top are all falsy. |
| QueryLaws.FalsyOptionsGiveSentinel | msgraph_async/common/odata_query.py:143-144 | `count=False`, `expand=""`, `select=[]` and `top=0` count as unset. |
| QueryLaws.FailsIffConnectorMissing | msgraph_async/common/odata_query.py:134-151 | For constraints of the modelled types, serialising raises if and only if the filter has two or more constraints and no connector. |
| QueryLaws.EmptyFilterAlone | msgraph_async/common/odata_query.py:143-157 | A filter object with no constraints prevents the sentinel but adds no entry, so the result is `?`. |
| QueryLaws.SeparatorWords | msgraph_async/common/odata_query.py:138 | The separators are ` and ` and ` or `. |
| QueryLaws.SingleConstraint | msgraph_async/common/odata_query.py:134-140 | One constraint renders alone, even without a connector. |
| QueryLaws.FilterTextJoins | msgraph_async/common/odata_query.py:134-140 | With a connector, the constraints are joined in list order by ` and ` or ` or `. |
| QueryLaws.FilterTextPair | msgraph_async/common/odata_query.py:134-140 | Two constraints render as the first, the separator, then the second. |
| QueryLaws.RenderComparison | msgraph_async/common/odata_query.py:35-36 | A comparison renders as attribute, word and value, separated by spaces. |
| QueryLaws.OrOfComparisons | msgraph_async/common/odata_query.py:134-140 | `eq` and `gt` constraints joined by OR give `a1 eq v1 or a2 gt v2`. |
| QueryLaws.TopOnly | msgraph_async/common/odata_query.py:154-157 | A query with only top set serialises to `?$top=` followed by the decimal text of top. |
| QueryLaws.TopFifty | msgraph_async/common/odata_query.py:154-157 | `top=50` alone gives `?$top=50`. |
| QueryLaws.AllParts | msgraph_async/common/odata_query.py:145-155 | With count, expand, two selected names and top set and no filter, the entries are `$count=true`, the lower-cased expand, the comma-joined select and top, in that order. |
| QueryLaws.AllOptions | msgraph_async/common/odata_query.py:142-157 | With count, expand, two selected names and top set and no filter, the full fragment is `?` followed by those four entries joined by `&`. |
| QueryParse.PartsArePairs | msgraph_async/common/odata_query.py:145-155 | Each entry is `$name=text` for its option's name. |
| QueryParse.RenderKeepsAbsent | msgraph_async/common/odata_query.py:35-36 | Rendering adds no `&` that the attribute or value lacked. |
| QueryParse.FilterKeepsAbsent | msgraph_async/common/odata_query.py:134-140 | The filter text contains no `&` when no constraint's attribute or value has one. |
| QueryParse.PartsKeepAbsent | msgraph_async/common/odata_query.py:145-155 | No entry of a query whose options contain no `&` contains one. |
| QueryParse.ParseFragment | msgraph_async/common/odata_query.py:157 | Splitting `?` plus the `&`-joined entries gives back the entries. |
| QueryParse.OptionsOfPairs | msgraph_async/common/odata_query.py:145-155 | Reading the entries in their fixed order gives back every option that was set. |
| QueryParse.ParseSerialize | msgraph_async/common/odata_query.py:142-157 | Reading back the serialised text recovers the count flag, the lower-cased expand, the filter text, the selected names and top. |
| QueryParse.SerializeInjective | msgraph_async/common/odata_query.py:142-157 | Separable queries that serialise to the same text set the same options. |
| Text.Lower | msgraph_async/common/odata_query.py:149 | `str.lower()` keeps the length, lowers ASCII capitals and keeps every other character. |
| Text.SplitJoin | msgraph_async/common/odata_query.py:153 | Splitting a `,`-joined list gives back the list when no name contains `,`. |
| Text.IntToString | msgraph_async/common/odata_query.py:155 | `str(top)` is non-empty decimal digits, with a leading `-` exactly for a negative number. |
| Text.IntRoundTrip | msgraph_async/common/odata_query.py:155 | Parsing `str(i)` gives back `i`. |
| Dicts.PutGet | msgraph_async/client/client.py:212-216 | After `d[k] = v`, `k` gives `v` and every other key gives what it gave before. |
| Dicts.PutKeys | msgraph_async/client/client.py:212-216 | `d[k] = v` keeps an existing key in place and appends a new key last. |
| Dicts.PutAt | msgraph_async/client/client.py:212-213 | Assigning to a key already present replaces that entry where it stands. |
| Dicts.PutNew | msgraph_async/client/client.py:215-216 | Assigning to a new key appends the entry. |
| Dicts.UpdateGet | msgraph_async/client/client.py:23-25 | After `d.update(e)`, a key of `e` gives `e`'s value and any other key gives `d`'s. |
| Dicts.UpdateKeys | msgraph_async/client/client.py:23-25 | `d.update(e)` never moves or drops the keys `d` already had. |
| Dicts.UpdateUnique | msgraph_async/client/client.py:23-25 | `d.update(e)` keeps every key unique. |
| Http.HeaderValue | msgraph_async/client/client.py:104 | The header lookup finds a value if and only if some header's name matches case-insensitively, and the value it returns belongs to such a header. |
| Http.ReadBodyJson | msgraph_async/client/client.py:104-105 | A Content-Type mentioning `application/json` anywhere makes the body decoded JSON. |
| Http.ReadBodyBytes | msgraph_async/client/client.py:106-107 | Any other Content-Type keeps the raw bytes. |
| Http.ExpectedStatuses | msgraph_async/client/client.py:99-100 | No expected statuses, or an empty set of them, means 200, 201 and 204. Otherwise the caller's statuses are used. |
| Http.DefaultStatuses | msgraph_async/client/client.py:98-110 | With the defaults, a reply is accepted if and only if its status is 200, 201 or 204. An accepted reply returns the payload and the status. |
| Http.RejectedStatus | msgraph_async/client/client.py:111-112 | Any other status raises the mapped exception, or `UnknownError` when the status is not mapped. Either carries the payload and the response headers. |
| Http.ReceiveNeedsContentType | msgraph_async/client/client.py:104 | A reply without a Content-Type raises, whatever its status. |
| Paging.PageOf | msgraph_async/client/client.py:185-186 | A page's next link, when it has one, is never empty. |
| Paging.CrawlStep | msgraph_async/client/client.py:188-192 | One step of the walk: an error stops it and a page without a next link ends it. Otherwise the page's items are added and its link is followed. |
| Paging.CrawlUrls | msgraph_async/client/client.py:183-192 | The walk requests the first URL and then each page's next link, in order, up to the page that stops it. |
| Paging.CrawlError | msgraph_async/client/client.py:183-192 | The walk raises exactly what the stopping page raised, or nothing. |
| Paging.CrawlItems | msgraph_async/client/client.py:183-192 | The walk yields the items of every fetched page in page order. |
| Client.AuthValueShape | msgraph_async/client/client.py:74-78 | The authorization value always starts with "bearer" in any case. It is the token itself if and only if the token already did, and otherwise it is `bearer ` plus the token. |
| Client.AuthValueIdempotent | msgraph_async/client/client.py:74-78 | Building the header from its own value changes nothing. |
| Client.HeaderPrecedence | msgraph_async/client/client.py:21-25 | The caller's extra headers win. Otherwise the JSON content type and the authorization header are present, and nothing else is. |
| Client.HeaderOrder | msgraph_async/client/client.py:22-25 | The authorization header comes first and the content type second, and keys are unique. |
| Client.GraphClient.Authorize | msgraph_async/client/client.py:14-26 | It raises if and only if neither the client's token nor an explicit one is truthy. Otherwise it returns the headers for the explicit token, or else the client's. |
| Client.ResourcePathAppend | msgraph_async/client/client.py:63-66 | The resource path of a concatenation is the concatenation of the paths. |
| Client.BuildUrl | msgraph_async/client/client.py:60-71 | The loop yields `UrlOf`: base, version, each resource with `/id` when the id is truthy, and then the query's text. The query's error is passed on. |
| Client.UnsetQueryAppendsSentinel | msgraph_async/client/client.py:68-70 | A query object is always appended, so one with nothing set appends the sentinel. |
| Client.UserMailsPath | msgraph_async/client/client.py:242 | The mail listing path is `users/<id>` followed by the mail segment. |
| Client.AcquireTokenCall | msgraph_async/client/client.py:123-130 | `POST` to the tenant's token endpoint, with the four form keys in order. |
| Client.AcquireTokenFields | msgraph_async/client/client.py:123-128 | The form carries the client-credentials grant, the Graph default scope, the app id and the secret. |
| Client.AcquiredTokenOk | msgraph_async/client/client.py:93-95 | A token is obtained if and only if the reply is readable, its status is 200, 201 or 204, and it holds a string `access_token`. |
| Client.GraphClient.constructor | msgraph_async/client/client.py:33-39 | A new client has no token, is not managed and refreshes every 3300 seconds. |
| Client.GraphClient.SetRefreshInterval | msgraph_async/client/client.py:45-49 | The interval is stored when it lies between 60 and 3600 inclusive. Otherwise it raises `ValueError` and nothing changes. |
| Client.GraphClient.RefreshToken | msgraph_async/client/client.py:93-96 | The token is replaced by the acquired one. On failure it raises and keeps the old token. Nothing else changes. |
| Client.GraphClient.ManageToken | msgraph_async/client/client.py:133-154 | When already managed, it raises "Token is already managed" and nothing changes. A failed refresh is raised wrapped, and the client stays unmanaged. Otherwise it takes the token, registers the refresh job with the current interval, and becomes managed. |
| Client.GraphClient.CreateSubscription | msgraph_async/client/client.py:195-219 | It raises when not authorized, or when a template comes without a user id. Otherwise it sends `POST` to the subscriptions URL with the authorized headers and the subscription body for the resolved resource. |
| Client.SubscriptionEntries | msgraph_async/client/client.py:205-211 | The five required keys come in order, and the keys are unique. |
| Client.SubscriptionBody | msgraph_async/client/client.py:205-216 | The required entries come in order. A truthy client state replaces the default in place. A truthy TLS version is appended last. |
| Client.SubscriptionBodyKeys | msgraph_async/client/client.py:205-216 | The body's keys are the five required ones, then `latestSupportedTlsVersion` exactly when a TLS version was given. |
| Client.SubscriptionBodyGets | msgraph_async/client/client.py:205-213 | Each required key gives its argument. The client state is `secretClientValue` unless a truthy one was given. |
| Client.SubscriptionBodyTls | msgraph_async/client/client.py:215-216 | The body carries a TLS version if and only if a truthy one was given. |
| Client.GraphClient.CollectPages | msgraph_async/client/client.py:188-192 | The loop yields `Crawl` of the page results: the items, the requested URLs and the error that stopped it. |
| Client.GraphClient.ListAll | msgraph_async/client/client.py:183-192 | It raises when not authorized. Otherwise it uses the authorized headers, builds the first URL from the resources and the query, and walks the pages from it. |
| Client.GraphClient.ListAllUsers | msgraph_async/client/client.py:183-192 | The walk over the users collection. |
| Client.GraphClient.ListAllUserMails | msgraph_async/client/client.py:254-263 | The walk over one user's mail collection. |

## Left out

- OData.LogicalOperator: the operators' integer enum values (EQ=1 to ENDS_WITH=8, odata_query.py:13-20) are not modelled. Nothing in the core reads them; only each operator's template is used.
- OData.Constrain: the fields have types, with a string attribute, a `LogicalOperator` operator and a string value. The source's `Constrain.__init__` (odata_query.py:30-33) checks none of these, and the `constrains` setter checks only that each element is a `Constrain` (line 53). A constraint whose operator is not a `LogicalOperator` would make `__str__` raise AttributeError on `.template` (line 36, reached through `_build_filter`). That is a second way for `__str__` to raise, and the model excludes it. A non-string attribute or value would be rendered through `str()` by `format`, and the model does not cover that either.

- Networking, `async`, the aiohttp session and the scheduler are not modelled.
  - Replies are parameters.
  - `add_job`/`start` are the recorded `RefreshJob` and never fail.
  - The periodic refresh, and its race with requests, is not modelled.
- Python's generators are not modelled: the listings return all yielded items at once, in order. A consumer that stops early is not modelled.
- `_get_microsoft_time_format` reads the clock, so the expiration is passed as text.
- Logging and `json.dumps` of the subscription body are not modelled. The body is the entry list the dict holds.
- The constants and `status2exception` come from modules that are not part of this model, so they are parameters.
- `get_user`, `list_users_bulk`, `list_more_users`, `list_user_mails_bulk`, `list_more_user_mails`, `renew_subscription` and `delete_subscription` are not modelled separately. The listing ones are the first and subsequent requests of `ListAll`. The rest are single `_request` calls whose logic `Authorize`, `BuildUrl` and `Receive` already cover.
- The `get_mail` and `move_mail` stubs are not modelled, because they do nothing.
- Text.Lower: only ASCII capitals are lowered, not the full Unicode case mapping of `str.lower()`.
- The lists given to `constrains` and `select` are stored as values. Aliasing with the caller, who could mutate the list later, is not modelled.
- Client.TokenOf: only a JSON string `access_token` is accepted. A missing key or another JSON type is an error. The source would store any value and fail only later. So with a status-200 reply `{"access_token": null}`, the source's `manage_token` succeeds, setting `_managed = True` with `_token = None` (client.py:95, 151). The model's `ManageToken` raises `Wrapped(BadContent("access_token"))` and stays unmanaged. The conjunct `managed ==> token.Some?` of `GraphClient.Valid()` holds only because of this refusal.
- Paging.NextLink: a truthy next link that is not a string is an error. The source would yield that page's `value` items first (client.py:186-187, 191-192) and fail only at the next request, when it hands the value to the session. In the model the whole page is an error, so the walk yields none of that page's items. For example, a page `{value: [1], next: 5}` gives no items.
- Paging.Crawl: the replies handed in must reach a page that stops the walk (`Ends`). An endless chain of next links is not modelled.
- Http.Receive: a JSON body that fails to decode is not modelled. The decoded JSON is part of the reply.
- Paging.PageOf: a page whose `value` is missing or not a list is an error. The source raises only when `value` is missing (KeyError) or is null, a number or a bool (TypeError). For a JSON string it would iterate the characters, and for a JSON object its keys. The model refuses those two shapes instead of yielding them as items.
- Client.GraphClient.SetRefreshInterval: only integers are modelled. A float or another comparable type that the source would accept is not.
- Http.HeaderValue: takes the lower-cased header name, and the caller passes `content-type`. Names are compared after ASCII lower-casing.
- QueryParse.ParseSerialize: holds only for separable queries, whose expand text, selected names and constraint texts contain no `&` (and names no `,`). The source writes these texts unescaped, so other queries do not read back unambiguously. Percent-encoding of the URL is done neither by the source nor by the model.
