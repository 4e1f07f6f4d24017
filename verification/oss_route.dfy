/**
 * `GET /api/oss` (src/app/api/oss/route.ts): forwards the list filters with
 * defaults, passes the client's page through unchanged, and returns the
 * upstream's list as it came.
 */
module OssRoute {
  import opened JsCore
  import opened Types
  import opened ExternalApi
  import opened RouteCommon

  const CrashPrefix := "OSS 목록 조회 실패: "

  const OssListKeys := ["ossName", "reviewed", "equalFlag", "page", "size", "sort", "direction"]

  /** The parameter record handed to `buildQueryString`, in its order. */
  function OssListParams(query: map<string, string>): seq<Param> {
    Zip(OssListKeys,
        [QueryGet(query, "ossName"),
         QueryGet(query, "reviewed"),
         Some(QueryOr(query, "equalFlag", "N")),
         Some(QueryOr(query, "page", "0")),
         Some(QueryOr(query, "size", "20")),
         Some(QueryOr(query, "sort", "name")),
         Some(QueryOr(query, "direction", "ASC"))])
  }

  function OssListPath(query: map<string, string>): string {
    "/api/v2/admin/oss" + QueryString(OssListParams(query))
  }

  lemma OssListKeysDistinct(query: map<string, string>)
    ensures DistinctKeys(OssListParams(query))
  {
    assert DistinctStrings(OssListKeys);
    var ps := OssListParams(query);
    assert forall i :: 0 <= i < |ps| ==> ps[i].0 == OssListKeys[i];
  }

  /**
   * What the upstream query carries: the page exactly as the client sent it
   * (no 1-based translation here, unlike the versions route) or `0`, the
   * filters only when non-empty, and the defaults `N`, `20`, `name`, `ASC`.
   */
  lemma OssListQuery(query: map<string, string>)
    ensures Lookup(KeptPairs(OssListParams(query)), "ossName") == NonEmpty(QueryGet(query, "ossName"))
    ensures Lookup(KeptPairs(OssListParams(query)), "reviewed") == NonEmpty(QueryGet(query, "reviewed"))
    ensures Lookup(KeptPairs(OssListParams(query)), "equalFlag") == NonEmpty(Some(QueryOr(query, "equalFlag", "N")))
    ensures Lookup(KeptPairs(OssListParams(query)), "page") == NonEmpty(Some(QueryOr(query, "page", "0")))
    ensures Lookup(KeptPairs(OssListParams(query)), "size") == NonEmpty(Some(QueryOr(query, "size", "20")))
    ensures Lookup(KeptPairs(OssListParams(query)), "sort") == NonEmpty(Some(QueryOr(query, "sort", "name")))
    ensures Lookup(KeptPairs(OssListParams(query)), "direction") == NonEmpty(Some(QueryOr(query, "direction", "ASC")))
  {
    var ps := OssListParams(query);
    OssListKeysDistinct(query);
    LookupKept(ps, 0);
    LookupKept(ps, 1);
    LookupKept(ps, 2);
    LookupKept(ps, 3);
    LookupKept(ps, 4);
    LookupKept(ps, 5);
    LookupKept(ps, 6);
  }

  const ListKeys := ["ossList", "content"]
  const CountKeys := ["totalCount", "totalElements"]

  /** `messageList.ossList ?? messageList.content ?? []`. */
  function ListOf(m: map<string, Json>): Json {
    FirstPresent(m, ListKeys).GetOr(JArr([]))
  }

  /** `messageList.totalCount ?? messageList.totalElements ?? 0`. */
  function CountOf(m: map<string, Json>): Json {
    FirstPresent(m, CountKeys).GetOr(JNum(0))
  }

  /** The route handler; `upstream` is what `externalFetch` did, used only when the call is made. */
  function Get(token: Option<string>, query: map<string, string>, upstream: Upstream): (x: Exchange)
    ensures !HasToken(token) ==> x == Exchange([], Unauthenticated)
    ensures HasToken(token) ==> x.calls == [Call(GET, OssListPath(query), token.value, None)]
    ensures HasToken(token) && upstream.Threw? ==> x.reply == Crashed(CrashPrefix, upstream.message)
    ensures HasToken(token) && upstream.Returned? && !upstream.response.success ==>
              x.reply == UpstreamFailure(upstream.response.code)
    ensures x.reply.status in {200, 401, 500, 502}
    ensures Succeeded(x.reply) <==> HasToken(token) && upstream.Succeeded()
  {
    if !HasToken(token) then Exchange([], Unauthenticated)
    else
      var calls := [Call(GET, OssListPath(query), token.value, None)];
      match upstream
      case Threw(message) => Exchange(calls, Crashed(CrashPrefix, message))
      case Returned(result) =>
        if !result.success then Exchange(calls, UpstreamFailure(result.code))
        else
          var m := result.messageList;
          Exchange(calls, SuccessReply(ListOf(m),
                                       Some(MetaBody(CountOf(m), ToNumber(QueryOr(query, "page", "0")),
                                                     ToNumber(QueryOr(query, "size", "20"))))))
  }

  /**
   * The list is `ossList`, else `content`, else empty; the total is
   * `totalCount`, else `totalElements`, else 0. A key holding `null` counts
   * as missing.
   */
  lemma ListAndCountFallBack(m: map<string, Json>)
    ensures Field(m, "ossList").Some? ==> ListOf(m) == m["ossList"]
    ensures Field(m, "ossList").None? && Field(m, "content").Some? ==> ListOf(m) == m["content"]
    ensures Field(m, "ossList").None? && Field(m, "content").None? ==> ListOf(m) == JArr([])
    ensures Field(m, "totalCount").Some? ==> CountOf(m) == m["totalCount"]
    ensures Field(m, "totalCount").None? && Field(m, "totalElements").Some? ==> CountOf(m) == m["totalElements"]
    ensures Field(m, "totalCount").None? && Field(m, "totalElements").None? ==> CountOf(m) == JNum(0)
  {
    FirstPresentOfTwo(m, "ossList", "content");
    FirstPresentOfTwo(m, "totalCount", "totalElements");
  }

  /**
   * A successful reply carries the upstream list verbatim, with the total
   * and the client's page and size (converted by `Number()`, defaults 0 and
   * 20) as its meta; the total never depends on a `count` key: that key is
   * read by the versions route only.
   */
  lemma ListPassesThrough(token: Option<string>, query: map<string, string>, upstream: Upstream, v: Json)
    requires HasToken(token) && upstream.Succeeded()
    ensures Get(token, query, upstream).reply.body.fields["data"] == ListOf(upstream.response.messageList)
    ensures var m := upstream.response.messageList;
            Get(token, query, upstream).reply
            == SuccessReply(ListOf(m), Some(MetaBody(CountOf(m), ToNumber(QueryOr(query, "page", "0")),
                                                     ToNumber(QueryOr(query, "size", "20")))))
    ensures var m := upstream.response.messageList;
            var other := Returned(upstream.response.(messageList := m["count" := v]));
            Get(token, query, other) == Get(token, query, upstream)
  {
    var m := upstream.response.messageList;
    FirstPresentIgnores(m, CountKeys, "count", v);
    FirstPresentIgnores(m, ListKeys, "count", v);
  }
}
