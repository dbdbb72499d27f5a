/**
 * Following a chain of result pages, as `list_all_users` and
 * `list_all_user_mails` of msgraph_async/client/client.py do: each page
 * carries a list of items under `value` and, under the next-link key, the
 * URL of the page after it; the walk stops at the first page without one.
 */
module Paging {
  import opened Results
  import opened Http

  /** One page: its items and the link to the next page, if it names one. */
  datatype Page = Page(items: seq<Json>, next: Option<string>)

  /** Python truthiness of a JSON value. */
  predicate Truthy(j: Json) {
    match j
    case JNull => false
    case JBool(b) => b
    case JNum(n) => n != 0
    case JStr(s) => s != ""
    case JArray(es) => es != []
    case JObject(fs) => fs != map[]
  }

  /**
   * `res.get(nextKey)` on a page: a falsy or missing entry ends the chain,
   * and a non-empty string is the URL to request next. Any other truthy
   * entry cannot be requested.
   */
  function NextLink(fields: map<string, Json>, nextKey: string): Result<Option<string>, ClientError> {
    if nextKey !in fields || !Truthy(fields[nextKey]) then Ok(None)
    else if fields[nextKey].JStr? then Ok(Some(fields[nextKey].s))
    else Err(BadContent(nextKey))
  }

  /** A payload as a page: a JSON object with a `value` list and an optional next link. */
  function PageOf(p: Payload, nextKey: string): (r: Result<Page, ClientError>)
    ensures r.Ok? ==> r.value.next.None? || r.value.next.value != ""
  {
    if !p.Structured? || !p.json.JObject? then Err(BadContent(nextKey))
    else
      var fields := p.json.fields;
      match NextLink(fields, nextKey)
      case Err(e) => Err(e)
      case Ok(next) =>
        if "value" in fields && fields["value"].JArray? then Ok(Page(fields["value"].elems, next))
        else Err(BadContent("value"))
  }

  /** A page ends the walk when fetching it raised or when it names no next page. */
  predicate Stops(r: Result<Page, ClientError>) {
    r.Err? || r.value.next.None?
  }

  /** The chain of page results reaches a page that stops the walk. */
  predicate Ends(ps: seq<Result<Page, ClientError>>)
    decreases |ps|
  {
    |ps| > 0 && (Stops(ps[0]) || Ends(ps[1..]))
  }

  /** What a walk produced: the items, in order; the URLs requested, in order; and what it raised, if anything. */
  datatype Fetched = Fetched(items: seq<Json>, urls: seq<string>, error: Option<ClientError>)

  /** The walk that starts by requesting `url`, when `ps` are the results of the requests in order. */
  function Crawl(ps: seq<Result<Page, ClientError>>, url: string): Fetched
    requires Ends(ps)
    decreases |ps|
  {
    match ps[0]
    case Err(e) => Fetched([], [url], Some(e))
    case Ok(p) =>
      if p.next.None? then Fetched(p.items, [url], None)
      else
        var rest := Crawl(ps[1..], p.next.value);
        Fetched(p.items + rest.items, [url] + rest.urls, rest.error)
  }

  /** What has been gathered so far followed by the rest of a walk. */
  function Combine(items: seq<Json>, urls: seq<string>, rest: Fetched): Fetched {
    Fetched(items + rest.items, urls + rest.urls, rest.error)
  }

  /** One step of the walk from page `i`, with what has been gathered before it. */
  lemma CrawlStep(ps: seq<Result<Page, ClientError>>, i: nat, url: string, items: seq<Json>, urls: seq<string>)
    requires i < |ps| && Ends(ps[i..])
    ensures ps[i].Err? ==>
      Combine(items, urls, Crawl(ps[i..], url)) == Fetched(items, urls + [url], Some(ps[i].error))
    ensures ps[i].Ok? && ps[i].value.next.None? ==>
      Combine(items, urls, Crawl(ps[i..], url)) == Fetched(items + ps[i].value.items, urls + [url], None)
    ensures ps[i].Ok? && ps[i].value.next.Some? ==>
      Ends(ps[i + 1..])
      && Combine(items, urls, Crawl(ps[i..], url))
         == Combine(items + ps[i].value.items, urls + [url], Crawl(ps[i + 1..], ps[i].value.next.value))
  {
    assert ps[i..][0] == ps[i];
    if ps[i].Ok? && ps[i].value.next.Some? {
      assert ps[i..][1..] == ps[i + 1..];
      var rest := Crawl(ps[i + 1..], ps[i].value.next.value);
      assert items + (ps[i].value.items + rest.items) == (items + ps[i].value.items) + rest.items;
      assert urls + ([url] + rest.urls) == (urls + [url]) + rest.urls;
    }
  }

  /** The index of the page that stops the walk. */
  function Reach(ps: seq<Result<Page, ClientError>>): (k: nat)
    requires Ends(ps)
    ensures k < |ps| && Stops(ps[k])
    ensures forall j :: 0 <= j < k ==> !Stops(ps[j])
    decreases |ps|
  {
    if Stops(ps[0]) then 0
    else
      var k := Reach(ps[1..]);
      assert forall j :: 1 <= j <= k ==> ps[j] == ps[1..][j - 1];
      k + 1
  }

  /** The items of the first `n` pages, concatenated in page order. */
  function ItemsUpTo(ps: seq<Result<Page, ClientError>>, n: nat): seq<Json>
    requires n <= |ps| && forall j :: 0 <= j < n ==> ps[j].Ok?
  {
    if n == 0 then [] else ItemsUpTo(ps, n - 1) + ps[n - 1].value.items
  }

  lemma {:induction false} ItemsUpToCons(ps: seq<Result<Page, ClientError>>, n: nat)
    requires 0 < n <= |ps| && forall j :: 0 <= j < n ==> ps[j].Ok?
    ensures ItemsUpTo(ps, n) == ps[0].value.items + ItemsUpTo(ps[1..], n - 1)
  {
    if n > 1 {
      ItemsUpToCons(ps, n - 1);
      assert ps[1..][n - 2] == ps[n - 1];
    }
  }

  /**
   * The walk requests the first URL and then, for each page that does not
   * stop it, exactly that page's next link.
   */
  lemma {:induction false} CrawlUrls(ps: seq<Result<Page, ClientError>>, url: string)
    requires Ends(ps)
    ensures var f := Crawl(ps, url); var k := Reach(ps);
      && |f.urls| == k + 1
      && f.urls[0] == url
      && (forall j :: 0 <= j < k ==> f.urls[j + 1] == ps[j].value.next.value)
    decreases |ps|
  {
    var f := Crawl(ps, url);
    var k := Reach(ps);
    if !Stops(ps[0]) {
      var p := ps[0].value;
      var rest := Crawl(ps[1..], p.next.value);
      CrawlUrls(ps[1..], p.next.value);
      assert Reach(ps[1..]) == k - 1;
      assert f.urls == [url] + rest.urls;
      forall j | 0 <= j < k ensures f.urls[j + 1] == ps[j].value.next.value {
        if j > 0 {
          assert f.urls[j + 1] == rest.urls[j];
          assert ps[1..][j - 1] == ps[j];
        }
      }
    }
  }

  /** The walk raises only what the stopping page raised. */
  lemma {:induction false} CrawlError(ps: seq<Result<Page, ClientError>>, url: string)
    requires Ends(ps)
    ensures var k := Reach(ps); Crawl(ps, url).error == (if ps[k].Err? then Some(ps[k].error) else None)
    decreases |ps|
  {
    if !Stops(ps[0]) {
      var k := Reach(ps);
      CrawlError(ps[1..], ps[0].value.next.value);
      assert Reach(ps[1..]) == k - 1;
      assert ps[1..][k - 1] == ps[k];
    }
  }

  /** The walk yields the items of every page it fetched, in page order. */
  lemma {:induction false} CrawlItems(ps: seq<Result<Page, ClientError>>, url: string)
    requires Ends(ps)
    ensures var k := Reach(ps);
      Crawl(ps, url).items == (if ps[k].Err? then ItemsUpTo(ps, k) else ItemsUpTo(ps, k + 1))
    decreases |ps|
  {
    var k := Reach(ps);
    if !Stops(ps[0]) {
      CrawlItems(ps[1..], ps[0].value.next.value);
      assert Reach(ps[1..]) == k - 1;
      assert ps[1..][k - 1] == ps[k];
      if ps[k].Err? {
        ItemsUpToCons(ps, k);
      } else {
        ItemsUpToCons(ps, k + 1);
      }
    }
  }
}
