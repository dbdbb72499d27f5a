/**
 * The request/response boundary of msgraph_async/client/client.py.
 *
 * The aiohttp session is not modelled: what the server answers to one
 * request is a `Reply` handed in by the caller, and `Receive` is the
 * decision `_request` takes on it: how the body is read (JSON when the
 * Content-Type says so, raw bytes otherwise) and whether the status is
 * accepted or raised as an error.
 */
module Http {
  import opened Results
  import opened Text
  import opened Dicts
  import opened OData

  /** A JSON document as the transport decodes it. */
  datatype Json =
    | JNull
    | JBool(b: bool)
    | JNum(n: int)
    | JStr(s: string)
    | JArray(elems: seq<Json>)
    | JObject(fields: map<string, Json>)

  /** A response body: decoded JSON, or the raw bytes. */
  datatype Payload = Structured(json: Json) | Bytes(bytes: seq<bv8>)

  /** What the server answers to one request; its body is offered both decoded and raw. */
  datatype Reply = Reply(status: int, headers: Dict, json: Json, bytes: seq<bv8>)

  /** The exception class an error status is raised as. */
  datatype ErrorKind = Mapped(name: string) | UnknownError

  /** What the client raises instead of returning. */
  datatype ClientError =
    | Raised(message: string)             // a plain `Exception`
    | ValueError(message: string)
    | GraphClientError(message: string)   // `GraphClientException` with a message
    | Wrapped(cause: ClientError)          // `GraphClientException(e)` around another error
    | ContentTypeMissing                  // the response has no Content-Type header
    | Api(kind: ErrorKind, payload: Payload, headers: Dict)
    | BadContent(key: string)             // a JSON payload lacks the entry `key` or has the wrong shape
    | Query(error: QueryError)            // serialising the OData query raised

  /**
   * A header by its lower-cased name `key`, matched case-insensitively as
   * aiohttp's header mapping does; the first match wins.
   */
  function HeaderValue(headers: Dict, key: string): (r: Option<string>)
    ensures r.Some? <==> exists i :: 0 <= i < |headers| && Lower(headers[i].0) == key
    ensures r.Some? ==> exists i :: 0 <= i < |headers| && Lower(headers[i].0) == key && headers[i].1 == r.value
    decreases |headers|
  {
    if headers == [] then None
    else if Lower(headers[0].0) == key then Some(headers[0].1)
    else
      var r := HeaderValue(headers[1..], key);
      assert forall i :: 0 < i < |headers| ==> headers[i] == headers[1..][i - 1];
      r
  }

  /** The statuses accepted when the caller names none (or an empty collection). */
  const DEFAULT_STATUSES: seq<int> := [200, 204, 201]

  function ExpectedStatuses(expected: Option<seq<int>>): (r: seq<int>)
    ensures expected.None? || expected.value == [] ==> (forall s :: s in r <==> s in {200, 201, 204})
    ensures expected.Some? && expected.value != [] ==> r == expected.value
  {
    if expected.None? || expected.value == [] then DEFAULT_STATUSES else expected.value
  }

  /** The body as `_request` reads it: JSON when the Content-Type mentions `application/json`. */
  function ReadBody(reply: Reply): Result<Payload, ClientError> {
    match HeaderValue(reply.headers, "content-type")
    case None => Err(ContentTypeMissing)
    case Some(ct) => Ok(if Contains(ct, "application/json") then Structured(reply.json) else Bytes(reply.bytes))
  }

  /** A Content-Type that mentions `application/json` anywhere makes the body decoded JSON; any other keeps the bytes. */
  lemma ReadBodyJson(reply: Reply, before: string, after: string)
    requires HeaderValue(reply.headers, "content-type") == Some(before + "application/json" + after)
    ensures ReadBody(reply) == Ok(Structured(reply.json))
  {
    ContainsInfix(before, "application/json", after);
  }

  lemma ReadBodyBytes(reply: Reply)
    requires HeaderValue(reply.headers, "content-type").Some?
    requires !Contains(HeaderValue(reply.headers, "content-type").value, "application/json")
    ensures ReadBody(reply) == Ok(Bytes(reply.bytes))
  {
  }

  /**
   * `_request` once the reply is in: an expected status returns the payload
   * and the status; any other raises the exception `errorMap` names for it,
   * or `UnknownError`, carrying the payload and the response headers.
   */
  function Receive(reply: Reply, expected: Option<seq<int>>, errorMap: map<int, string>): Result<(Payload, int), ClientError> {
    match ReadBody(reply)
    case Err(e) => Err(e)
    case Ok(p) =>
      if reply.status in ExpectedStatuses(expected) then Ok((p, reply.status))
      else Err(Api(if reply.status in errorMap then Mapped(errorMap[reply.status]) else UnknownError, p, reply.headers))
  }

  /** With no expected statuses named, exactly 200, 201 and 204 are accepted, returning payload and status. */
  lemma DefaultStatuses(reply: Reply, expected: Option<seq<int>>, errorMap: map<int, string>)
    requires ReadBody(reply).Ok?
    requires expected.None? || expected.value == []
    ensures Receive(reply, expected, errorMap).Ok? <==> reply.status in {200, 201, 204}
    ensures Receive(reply, expected, errorMap).Ok? ==>
      Receive(reply, expected, errorMap).value == (ReadBody(reply).value, reply.status)
  {
    var _ := ExpectedStatuses(expected);
  }

  /** Any other status raises the mapped exception, or `UnknownError`, with the payload and the response headers. */
  lemma RejectedStatus(reply: Reply, expected: Option<seq<int>>, errorMap: map<int, string>)
    requires ReadBody(reply).Ok?
    requires reply.status !in ExpectedStatuses(expected)
    ensures var r := Receive(reply, expected, errorMap);
      r.Err? && r.error.Api? && r.error.payload == ReadBody(reply).value && r.error.headers == reply.headers
      && (r.error.kind == UnknownError <==> reply.status !in errorMap)
      && (reply.status in errorMap ==> r.error.kind == Mapped(errorMap[reply.status]))
  {
  }

  /** A reply without a Content-Type raises whatever its status. */
  lemma ReceiveNeedsContentType(reply: Reply, expected: Option<seq<int>>, errorMap: map<int, string>)
    requires forall i :: 0 <= i < |reply.headers| ==> Lower(reply.headers[i].0) != "content-type"
    ensures Receive(reply, expected, errorMap) == Err(ContentTypeMissing)
  {
  }
}
