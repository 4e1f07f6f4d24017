/**
 * What the five local API routes share: the request parts they read, the
 * upstream calls they make, the JSON replies they send, and the two ways every
 * route turns an upstream failure into a reply (401 or 502 with the code's
 * message, 500 with a route-specific prefix when something threw).
 */
module RouteCommon {
  import opened JsCore
  import opened Types
  import opened ExternalApi

  /** The HTTP methods the routes send upstream. */
  datatype Verb = GET | PUT | DELETE

  /** One call of `externalFetch`: method, path below the upstream base, bearer token, JSON body. */
  datatype Call = Call(verb: Verb, path: string, token: string, body: Option<Json>)

  /** A reply of a local route: its HTTP status and its JSON body. */
  datatype Reply = Reply(status: int, body: Json)

  /** What one request to a route did: the upstream calls in order, and the reply. */
  datatype Exchange = Exchange(calls: seq<Call>, reply: Reply)

  /** A JavaScript computation that returns a value or throws an error with a message. */
  datatype Result<T> = Ok(value: T) | Fail(message: string)

  const TokenRequired := "인증 토큰이 필요합니다."

  /** `!token`: the `X-Auth-Token` header is missing or empty. */
  predicate HasToken(token: Option<string>) {
    token.Some? && token.value != ""
  }

  /** `searchParams.get(k)`: the parameter's value, `None` for null. */
  function QueryGet(query: map<string, string>, k: string): (r: Option<string>)
    ensures r.Some? <==> k in query
  {
    if k in query then Some(query[k]) else None
  }

  /** `searchParams.get(k) ?? d`. */
  function QueryOr(query: map<string, string>, k: string, d: string): string {
    QueryGet(query, k).GetOr(d)
  }

  /**
   * `items.map(f)` where `f` may throw: every item mapped in order, or the
   * error of the first item that throws.
   */
  function MapAll(f: Json -> Result<Json>, items: seq<Json>): (r: Result<seq<Json>>)
    ensures r.Ok? <==> forall i :: 0 <= i < |items| ==> f(items[i]).Ok?
    ensures r.Ok? ==> |r.value| == |items| && forall i :: 0 <= i < |items| ==> f(items[i]) == Ok(r.value[i])
    ensures r.Fail? ==> exists i :: 0 <= i < |items| && f(items[i]) == Fail(r.message)
                                    && forall j :: 0 <= j < i ==> f(items[j]).Ok?
  {
    if items == [] then Ok([])
    else
      match f(items[0])
      case Fail(m) => Fail(m)
      case Ok(first) =>
        var rest := MapAll(f, items[1..]);
        assert forall i :: 1 <= i < |items| ==> items[i] == items[1..][i - 1];
        match rest
        case Fail(m) =>
          var i :| 0 <= i < |items[1..]| && f(items[1..][i]) == Fail(m)
                   && forall j :: 0 <= j < i ==> f(items[1..][j]).Ok?;
          assert f(items[i + 1]) == Fail(m);
          Fail(m)
        case Ok(tail) => Ok([first] + tail)
  }

  /** A parameter value as it lands in an upstream query: absent when missing or empty. */
  function NonEmpty(v: Option<string>): Option<string> {
    if v.Some? && v.value != "" then v else None
  }

  /** A number as `JSON.stringify` writes it: NaN becomes `null`. */
  function NumJson(n: Num): (j: Json)
    ensures j.JNull? <==> n.NaN?
  {
    match n
    case Int(v) => JNum(v)
    case NaN => JNull
  }

  /** `{ success: false, error }`. */
  function ErrorBody(message: string): Json {
    JObj(map["success" := JBool(false), "error" := JStr(message)])
  }

  /** `{ success: true, data }` and, for list routes, `meta`. */
  function SuccessBody(data: Json, meta: Option<Json>): Json {
    var fields := map["success" := JBool(true), "data" := data];
    JObj(if meta.Some? then fields["meta" := meta.value] else fields)
  }

  /** `{ totalCount, currentPage, pageSize }`. */
  function MetaBody(totalCount: Json, currentPage: Num, pageSize: Num): Json {
    JObj(map["totalCount" := totalCount, "currentPage" := NumJson(currentPage), "pageSize" := NumJson(pageSize)])
  }

  /** A reply with `{ success: false, error: message }` and nothing else in its body. */
  function Failure(status: int, message: string): (r: Reply)
    ensures r.status == status && !Succeeded(r)
    ensures r.body.JObj? && r.body.fields.Keys == {"success", "error"}
            && r.body.fields["success"] == JBool(false) && r.body.fields["error"] == JStr(message)
  {
    Reply(status, ErrorBody(message))
  }

  /** A 200 reply with `{ success: true, data, meta? }`. */
  function SuccessReply(data: Json, meta: Option<Json>): (r: Reply)
    ensures r.status == 200 && Succeeded(r)
    ensures r.body.JObj? && "data" in r.body.fields && r.body.fields["data"] == data
    ensures meta.Some? ==> "meta" in r.body.fields && r.body.fields["meta"] == meta.value
  {
    Reply(200, SuccessBody(data, meta))
  }

  /** The reply to a request without a token. */
  const Unauthenticated := Failure(401, TokenRequired)

  /** The error an `Error` object carries into a 500 reply: the route's prefix and its message. */
  function Crashed(prefix: string, message: string): (r: Reply)
    ensures r.status == 500 && !Succeeded(r)
    ensures r.body.JObj? && r.body.fields.Keys == {"success", "error"}
            && r.body.fields["success"] == JBool(false) && r.body.fields["error"] == JStr(prefix + message)
  {
    Failure(500, prefix + message)
  }

  /** An upstream `success: false` with `code`: 401 for `'401'`, 502 otherwise, with the code's message. */
  function UpstreamFailure(code: string): (r: Reply)
    ensures r.status == 401 <==> code == "401"
    ensures r.status != 401 ==> r.status == 502
    ensures r.body == ErrorBody(GetErrorMessage(code))
    ensures !Succeeded(r)
  {
    Failure(if code == "401" then 401 else 502, GetErrorMessage(code))
  }

  /** The reply's `success` flag. */
  predicate Succeeded(r: Reply) {
    r.body.JObj? && "success" in r.body.fields && r.body.fields["success"] == JBool(true)
  }

  // ---------------------------------------------------------------------------
  // Bulk requests

  /** What `await request.json()` produced: a JSON value, or the parse error it threw. */
  datatype RequestBody = JsonBody(value: Json) | BadJson(message: string)

  /** The engine's message for destructuring a `null` body (V8 wording). */
  const NullBody := "Cannot destructure property 'versionIds' of 'body' as it is null."
  const MissingIds := "버전 ID 목록이 필요합니다."

  /** `const { k } = body`: the property or `None` for undefined; destructuring `null` throws. */
  function Destructure(body: Json, k: string): (r: Result<Option<Json>>)
    ensures r.Fail? <==> body.JNull?
    ensures body.JObj? ==> r == Ok(if k in body.fields then Some(body.fields[k]) else None)
  {
    match body
    case JNull => Fail(NullBody)
    case JObj(m) => Ok(if k in m then Some(m[k]) else None)
    case _ => Ok(None)
  }

  /** `Array.isArray(versionIds) && versionIds.length > 0`: the ids, when they pass. */
  function IdList(v: Option<Json>): (r: Option<seq<Json>>)
    ensures r.Some? <==> v.Some? && v.value.JArr? && v.value.items != []
    ensures r.Some? ==> r.value == v.value.items
  {
    if v.Some? && v.value.JArr? && v.value.items != [] then Some(v.value.items) else None
  }

  /** The upstream path of one version: the id written with `String(id)`. */
  function VersionPath(id: Json): string {
    "/api/v2/admin/oss-versions/" + JsString(id)
  }

  /** What the per-id task of a bulk route did: its upstream calls and whether it fulfilled. */
  datatype ItemRun = ItemRun(calls: seq<Call>, ok: bool)

  /** The calls of all per-id tasks, task by task. */
  function AllCalls(runs: seq<ItemRun>): seq<Call> {
    if runs == [] then [] else runs[0].calls + AllCalls(runs[1..])
  }

  /** How many entries equal `b`: `results.filter(r => r.status === ...).length`. */
  function CountWhere(oks: seq<bool>, b: bool): (n: nat)
    ensures n <= |oks|
  {
    if oks == [] then 0 else (if oks[0] == b then 1 else 0) + CountWhere(oks[1..], b)
  }

  /** The settled outcomes of the per-id tasks, in order. */
  function Outcomes(runs: seq<ItemRun>): (oks: seq<bool>)
    ensures |oks| == |runs| && forall i :: 0 <= i < |runs| ==> oks[i] == runs[i].ok
  {
    seq(|runs|, i requires 0 <= i < |runs| => runs[i].ok)
  }

  /** `{ total, succeeded, failed }` of a bulk route. */
  function Tally(oks: seq<bool>): BulkResult {
    BulkResult(|oks|, CountWhere(oks, true), CountWhere(oks, false))
  }

  /**
   * The counters add up: every task is counted once, as succeeded or as failed;
   * all succeeded exactly when every task fulfilled, none exactly when none did.
   */
  lemma {:induction false} TallyAddsUp(oks: seq<bool>)
    ensures Tally(oks).succeeded + Tally(oks).failed == Tally(oks).total == |oks|
    ensures Tally(oks).succeeded == |oks| <==> forall i :: 0 <= i < |oks| ==> oks[i]
    ensures Tally(oks).failed == |oks| <==> forall i :: 0 <= i < |oks| ==> !oks[i]
  {
    if oks != [] {
      TallyAddsUp(oks[1..]);
      assert forall i :: 1 <= i < |oks| ==> oks[i] == oks[1..][i - 1];
    }
  }

  function BulkBody(r: BulkResult): Json {
    JObj(map["total" := JNum(r.total), "succeeded" := JNum(r.succeeded), "failed" := JNum(r.failed)])
  }

  /**
   * Followed through `externalFetch`, a failed upstream reply reaches the client
   * as 401 exactly when the upstream said 401 and as 502 for every other
   * non-2xx status (403 included), never as a success.
   */
  lemma UpstreamStatusMapping(reply: HttpReply)
    requires !IsOk(reply.status)
    ensures Classify(Replied(reply)).Returned?
    ensures UpstreamFailure(Classify(Replied(reply)).response.code).status
            == (if reply.status == 401 then 401 else 502)
    ensures !Succeeded(UpstreamFailure(Classify(Replied(reply)).response.code))
  {
    FailureCodeIsStatus(reply);
    var code := Classify(Replied(reply)).response.code;
    if reply.status != 401 {
      StatusText401();
      if code == "401" {
        IntToStringInjective(reply.status, 401);
      }
    }
  }

  lemma StatusText401()
    ensures IntToString(401) == "401"
  {
    assert NatToString(4) == "4" && NatToString(40) == "40" && NatToString(1) == "1";
  }
}
