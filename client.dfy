/**
 * The HTTP client `Api` (src/api/client.ts) without the network: the request an endpoint
 * method hands to `get`/`post`/`put`/`patch`/`delete`, the URL `buildUrl` makes of it, the
 * headers `fetch` adds, and how a response or a transport failure becomes a result or error.
 */
module Client {
  import opened Common
  import Text

  datatype Method = GET | POST | PUT | PATCH | DELETE

  /** A value placed in a query object. */
  datatype QueryValue = Undefined | Null | Str(s: string) | Num(n: int) | Bool(b: bool)

  /** A query object (`Record<string, unknown>`): distinct keys, each with a value. */
  type Query = map<string, QueryValue>

  /**
   * What an endpoint method passes to the client: the verb, the path, whether the call is
   * authenticated (`secure`), the query object and the body data (before JSON encoding).
   */
  datatype Request<B> = Request(verb: Method, path: string, secure: bool, query: Option<Query>, body: Option<B>)

  /** Only `get` and `post` forward a query; only `post`, `put` and `patch` forward a body. */
  predicate VerbShape<B>(r: Request<B>)
  {
    && (r.verb in {PUT, PATCH, DELETE} ==> r.query.None?)
    && (r.verb in {GET, DELETE} ==> r.body.None?)
  }

  /** `Api.get(path, secure, query)`. */
  function Get<B>(path: string, secure: bool, query: Option<Query>): (r: Request<B>)
    ensures VerbShape(r) && r.verb == GET
    ensures r.path == path && r.secure == secure && r.query == query
  {
    Request(GET, path, secure, query, None)
  }

  /** `Api.post(path, secure, data, query)`; `data` is sent only when it is defined. */
  function Post<B>(path: string, secure: bool, data: Option<B>, query: Option<Query>): (r: Request<B>)
    ensures VerbShape(r) && r.verb == POST
    ensures r.path == path && r.secure == secure && r.query == query && r.body == data
  {
    Request(POST, path, secure, query, data)
  }

  /** `Api.put(path, secure, data)`: the URL is built without a query. */
  function Put<B>(path: string, secure: bool, data: Option<B>): (r: Request<B>)
    ensures VerbShape(r) && r.verb == PUT
    ensures r.path == path && r.secure == secure && r.query.None? && r.body == data
  {
    Request(PUT, path, secure, None, data)
  }

  /** `Api.patch(path, secure, data)`: the URL is built without a query. */
  function Patch<B>(path: string, secure: bool, data: Option<B>): (r: Request<B>)
    ensures VerbShape(r) && r.verb == PATCH
    ensures r.path == path && r.secure == secure && r.query.None? && r.body == data
  {
    Request(PATCH, path, secure, None, data)
  }

  /** `Api.delete(path, secure)`: neither a query nor a body. */
  function Delete<B>(path: string, secure: bool): (r: Request<B>)
    ensures VerbShape(r) && r.verb == DELETE
    ensures r.path == path && r.secure == secure && r.query.None? && r.body.None?
  {
    Request(DELETE, path, secure, None, None)
  }

  // ---------------------------------------------------------------------------
  // buildUrl

  /** The URL relative to the base URL: a path and its search parameters. */
  datatype Url = Url(path: string, search: map<string, string>)

  /** `value === undefined || value === null || value === ''`: the entry is skipped. */
  predicate Dropped(v: QueryValue)
  {
    v == Undefined || v == Null || v == Str("")
  }

  /** `String(value)`. */
  function Stringify(v: QueryValue): string
  {
    match v
    case Undefined => "undefined"
    case Null => "null"
    case Str(s) => s
    case Num(n) => Text.IntToString(n)
    case Bool(b) => if b then "true" else "false"
  }

  /** `path.startsWith('/') ? path : '/' + path`. */
  function NormalizePath(path: string): (r: string)
    ensures Text.StartsWith(r, "/")
    ensures Text.StartsWith(path, "/") ==> r == path
    ensures !Text.StartsWith(path, "/") ==> r == "/" + path
  {
    if Text.StartsWith(path, "/") then path else "/" + path
  }

  /** Normalising twice changes nothing more. */
  lemma NormalizePathIdempotent(path: string)
    ensures NormalizePath(NormalizePath(path)) == NormalizePath(path)
  {
  }

  /** The search parameters a query object yields: every entry that is not dropped, stringified. */
  function SearchParams(q: Query): (r: map<string, string>)
  {
    map k | k in q && !Dropped(q[k]) :: Stringify(q[k])
  }

  /**
   * `buildUrl(path, query)`: walks the entries of `query` and sets a search parameter for
   * each one whose value is not `undefined`, `null` or `''`.
   */
  method BuildUrl(path: string, query: Option<Query>) returns (url: Url)
    ensures url.path == NormalizePath(path)
    ensures query.None? ==> url.search == map[]
    ensures query.Some? ==> forall k :: k in url.search <==> k in query.value && !Dropped(query.value[k])
    ensures query.Some? ==> forall k :: k in url.search ==> url.search[k] == Stringify(query.value[k])
  {
    var search: map<string, string> := map[];
    if query.Some? {
      var q := query.value;
      var remaining := q.Keys;
      while remaining != {}
        invariant remaining <= q.Keys
        invariant forall k :: k in search <==> k in q && k !in remaining && !Dropped(q[k])
        invariant forall k :: k in search ==> search[k] == Stringify(q[k])
        decreases remaining
      {
        var key :| key in remaining;
        var value := q[key];
        if !Dropped(value) {
          search := search[key := Stringify(value)];
        }
        remaining := remaining - {key};
      }
    }
    url := Url(NormalizePath(path), search);
  }

  /** `buildUrl` keeps `false` and `0`: only `undefined`, `null` and `''` are dropped. */
  lemma FalseAndZeroAreKept(q: Query, k1: string, k2: string)
    requires k1 in q && q[k1] == Bool(false)
    requires k2 in q && q[k2] == Num(0)
    ensures k1 in SearchParams(q) && SearchParams(q)[k1] == "false"
    ensures k2 in SearchParams(q) && SearchParams(q)[k2] == "0"
  {
  }

  // ---------------------------------------------------------------------------
  // Query objects assembled by the endpoint methods

  /** The `order?: 'ASC' | 'DESC'` option of the `getAll` methods. */
  datatype SortOrder = ASC | DESC

  function OrderText(o: SortOrder): string
  {
    match o
    case ASC => "ASC"
    case DESC => "DESC"
  }

  /** An optional numeric option, as a possible query value. */
  function NumEntry(x: Option<int>): (e: Option<QueryValue>)
    ensures e.Some? <==> x.Some?
    ensures x.Some? ==> e.value == Num(x.value)
  {
    match x
    case None => None
    case Some(n) => Some(Num(n))
  }

  /** An optional text option, as a possible query value. */
  function StrEntry(x: Option<string>): (e: Option<QueryValue>)
    ensures e.Some? <==> x.Some?
    ensures x.Some? ==> e.value == Str(x.value)
  {
    match x
    case None => None
    case Some(t) => Some(Str(t))
  }

  /** An optional boolean option, as a possible query value. */
  function BoolEntry(x: Option<bool>): (e: Option<QueryValue>)
    ensures e.Some? <==> x.Some?
    ensures x.Some? ==> e.value == Bool(x.value)
  {
    match x
    case None => None
    case Some(b) => Some(Bool(b))
  }

  /** An optional sort order, as a possible query value. */
  function OrderEntry(x: Option<SortOrder>): (e: Option<QueryValue>)
    ensures e.Some? <==> x.Some?
    ensures x.Some? ==> e.value == Str(OrderText(x.value))
  {
    match x
    case None => None
    case Some(o) => Some(Str(OrderText(o)))
  }

  /** A query key with the option that may fill it (`None` for an option left `undefined`). */
  type Candidate = (string, Option<QueryValue>)

  /**
   * The query object `getAll` builds with one `if (options.k !== undefined) queryParams.k = ...`
   * per candidate, after the first `n` of these assignments.
   */
  function Assemble(cands: seq<Candidate>, n: nat): Query
    requires n <= |cands|
  {
    if n == 0 then map[] else Include(Assemble(cands, n - 1), cands[n - 1].0, cands[n - 1].1)
  }

  /** `if (e !== undefined) q[k] = e`. */
  function Include(q: Query, k: string, e: Option<QueryValue>): Query
  {
    if e.Some? then q[k := e.value] else q
  }

  /** No key is assigned twice. */
  predicate DistinctKeys(cands: seq<Candidate>)
  {
    forall i, j :: 0 <= i < j < |cands| ==> cands[i].0 != cands[j].0
  }

  /** The query object holds `k` exactly when the candidate `e` is defined, with its value. */
  predicate Carries(q: Query, k: string, e: Option<QueryValue>)
  {
    (k in q <==> e.Some?) && (k in q ==> q[k] == e.value)
  }

  /** After the assignments, each candidate's key is present exactly when its option is defined. */
  lemma {:induction false} AssembleCarries(cands: seq<Candidate>, n: nat, i: nat)
    requires n <= |cands| && DistinctKeys(cands) && i < n
    ensures Carries(Assemble(cands, n), cands[i].0, cands[i].1)
    decreases n
  {
    if i < n - 1 {
      AssembleCarries(cands, n - 1, i);
      assert cands[i].0 != cands[n - 1].0;
    } else if cands[i].1.None? && cands[i].0 in Assemble(cands, n - 1) {
      AssembleOnlyCandidates(cands, n - 1, cands[i].0);
      assert false;
    }
  }

  /** Nothing but candidate keys is ever assigned. */
  lemma {:induction false} AssembleOnlyCandidates(cands: seq<Candidate>, n: nat, k: string)
    requires n <= |cands|
    requires k in Assemble(cands, n)
    ensures exists i :: 0 <= i < n && cands[i].0 == k
    decreases n
  {
    if k != cands[n - 1].0 || cands[n - 1].1.None? {
      AssembleOnlyCandidates(cands, n - 1, k);
      var i :| 0 <= i < n - 1 && cands[i].0 == k;
      assert 0 <= i < n && cands[i].0 == k;
    }
  }

  /**
   * Assembled entries reach the URL unless their value is `''`: an option that is defined but
   * empty is put in the query object and then dropped by `buildUrl`.
   */
  lemma AssembledInUrl(cands: seq<Candidate>, i: nat)
    requires DistinctKeys(cands) && i < |cands|
    ensures var s := SearchParams(Assemble(cands, |cands|));
      && (cands[i].0 in s <==> cands[i].1.Some? && !Dropped(cands[i].1.value))
      && (cands[i].0 in s ==> s[cands[i].0] == Stringify(cands[i].1.value))
  {
    AssembleCarries(cands, |cands|, i);
  }

  // ---------------------------------------------------------------------------
  // Headers

  const ContentTypeJson: string := "application/json; charset=utf-8"

  /** `if (secure && Api.token) headers['Authorization'] = 'Bearer ' + Api.token`. */
  function AuthorizationHeader(secure: bool, token: Option<string>): (r: Option<string>)
    ensures r.Some? <==> secure && TextTruthy(token)
    ensures r.Some? ==> r.value == "Bearer " + token.value
  {
    if secure && TextTruthy(token) then Some("Bearer " + token.value) else None
  }

  /** The headers of the request: `Content-Type` for verbs with a body, then `Authorization`. */
  function Headers(verb: Method, secure: bool, token: Option<string>): (h: map<string, string>)
    ensures "Content-Type" in h <==> verb in {POST, PUT, PATCH}
    ensures "Content-Type" in h ==> h["Content-Type"] == ContentTypeJson
    ensures "Authorization" in h <==> AuthorizationHeader(secure, token).Some?
    ensures "Authorization" in h ==> h["Authorization"] == AuthorizationHeader(secure, token).value
    ensures h.Keys <= {"Content-Type", "Authorization"}
  {
    var base: map<string, string> :=
      if verb in {POST, PUT, PATCH} then map["Content-Type" := ContentTypeJson] else map[];
    match AuthorizationHeader(secure, token)
    case Some(v) => base["Authorization" := v]
    case None => base
  }

  /** What `fetch` is called with. */
  datatype HttpRequest<B> = HttpRequest(url: Url, verb: Method, headers: map<string, string>, body: Option<B>)

  /** The `fetch` call a request becomes, given the value of `Api.token` at that moment. */
  method Prepare<B>(req: Request<B>, token: Option<string>) returns (http: HttpRequest<B>)
    ensures http.url.path == NormalizePath(req.path)
    ensures req.query.None? ==> http.url.search == map[]
    ensures req.query.Some? ==> http.url.search == SearchParams(req.query.value)
    ensures http.verb == req.verb && http.body == req.body
    ensures http.headers == Headers(req.verb, req.secure, token)
  {
    var url := BuildUrl(req.path, req.query);
    http := HttpRequest(url, req.verb, Headers(req.verb, req.secure, token), req.body);
  }

  // ---------------------------------------------------------------------------
  // Responses and failures

  /** The parsed JSON of an error response, `{ message?: string }`. */
  datatype ErrorBody = ErrorBody(message: Option<string>)

  /**
   * A response as `fetch` resolves it: `errorBody` is the parsed body of a failed response
   * (none when it is not JSON), `json` the parsed body of a successful one.
   */
  datatype Response<T> = Response(ok: bool, status: int, errorBody: Option<ErrorBody>, contentType: Option<string>, json: T)

  /** What the transport does: resolve with a response or throw an error with a `name`. */
  datatype Transport<T> = Responded(response: Response<T>) | Threw(name: string, message: string)

  /** What callers of the client may catch. */
  datatype ApiError =
    | HttpError(message: string, status: int, body: Option<ErrorBody>)  // the `Error` built for a non-ok response
    | BareError(message: string)                                       // `{ message }` rethrown for AbortError/TypeError
    | Rethrown(name: string, message: string)                           // any other failure, unchanged

  /** The text a failed response's message starts with when the server gives none. */
  const FailurePrefix: string := "API request failed: "

  /** `errorBody?.message || 'API request failed: ' + status`. */
  function ErrorMessage(body: Option<ErrorBody>, status: int): string
  {
    if body.Some? && TextTruthy(body.value.message) then body.value.message.value
    else FailurePrefix + Text.IntToString(status)
  }

  /**
   * The message of a failed response is the server's own when it gave a non-empty one; it is
   * never empty, and without a server message the status can be read back from it.
   */
  lemma ErrorMessageInformative(body: Option<ErrorBody>, status: int)
    ensures ErrorMessage(body, status) != ""
    ensures body.Some? && TextTruthy(body.value.message) ==> ErrorMessage(body, status) == body.value.message.value
    ensures !(body.Some? && TextTruthy(body.value.message)) ==>
      var m := ErrorMessage(body, status);
      |FailurePrefix| <= |m| && m[..|FailurePrefix|] == FailurePrefix && Text.ParseInt(m[|FailurePrefix|..]) == status
  {
    if !(body.Some? && TextTruthy(body.value.message)) {
      var m := ErrorMessage(body, status);
      assert m == FailurePrefix + Text.IntToString(status);
      assert m[|FailurePrefix|..] == Text.IntToString(status);
      Text.ParseIntToString(status);
    }
  }

  /** The HTTP status an error carries, if any. */
  function StatusOf(e: ApiError): Option<int>
  {
    if e.HttpError? then Some(e.status) else None
  }

  /** `response.headers.get('content-type') || ''` contains `application/json`. */
  predicate IsJson(contentType: Option<string>)
  {
    contentType.Some? && Text.Includes(contentType.value, "application/json")
  }

  /**
   * How `Api.fetch` settles: a non-ok response throws an `Error` with a message and the
   * status; an ok response yields its JSON only for a JSON content type; an `AbortError`
   * or `TypeError` is rethrown as a bare `{ message }`; other failures pass through.
   */
  function Settle<T>(t: Transport<T>): (r: Result<Option<T>, ApiError>)
    ensures t.Responded? && !t.response.ok ==>
      r == Err(HttpError(ErrorMessage(t.response.errorBody, t.response.status), t.response.status, t.response.errorBody))
    ensures t.Responded? && t.response.ok ==>
      r == Ok(if IsJson(t.response.contentType) then Some(t.response.json) else None)
    ensures t.Threw? ==> r.Err? && StatusOf(r.error).None?
    ensures t.Threw? && (t.name == "AbortError" || t.name == "TypeError") ==> r == Err(BareError(t.message))
    ensures t.Threw? && t.name != "AbortError" && t.name != "TypeError" ==> r == Err(Rethrown(t.name, t.message))
  {
    match t
    case Threw(name, message) =>
      if name == "AbortError" || name == "TypeError" then Err(BareError(message))
      else Err(Rethrown(name, message))
    case Responded(resp) =>
      if !resp.ok then Err(HttpError(ErrorMessage(resp.errorBody, resp.status), resp.status, resp.errorBody))
      else if IsJson(resp.contentType) then Ok(Some(resp.json))
      else Ok(None)
  }

  /** An error carries a status exactly when the server answered with a non-ok response. */
  lemma StatusOnlyFromResponses<T>(t: Transport<T>)
    requires Settle(t).Err?
    ensures StatusOf(Settle(t).error).Some? <==> t.Responded? && !t.response.ok
    ensures StatusOf(Settle(t).error).Some? ==> StatusOf(Settle(t).error).value == t.response.status
  {
  }

  /** The static `Api.token`, read by every secure call. */
  class ApiSession {
    var token: Option<string>

    constructor()
      ensures token == None
    {
      token := None;
    }

    /** `Api.fetch` on a request, with the transport's behaviour as input. */
    method Fetch<B, T>(req: Request<B>, transport: Transport<T>) returns (http: HttpRequest<B>, r: Result<Option<T>, ApiError>)
      ensures http.url.path == NormalizePath(req.path)
      ensures req.query.None? ==> http.url.search == map[]
      ensures req.query.Some? ==> http.url.search == SearchParams(req.query.value)
      ensures http.headers == Headers(req.verb, req.secure, token)
      ensures http.verb == req.verb && http.body == req.body
      ensures r == Settle(transport)
    {
      http := Prepare(req, token);
      r := Settle(transport);
    }
  }
}
