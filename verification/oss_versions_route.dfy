/**
 * `GET /api/oss-versions` (src/app/api/oss-versions/route.ts): checks the token
 * and the required `ossMasterId`, translates the client's 1-based page into the
 * upstream's 0-based page, fetches one page of versions and normalizes every
 * item's `reviewed` flag to `'Y'` or `'N'`.
 */
module OssVersionsRoute {
  import opened JsCore
  import opened Types
  import opened ExternalApi
  import opened RouteCommon

  const MissingMasterId := "ossMasterId는 필수 파라미터입니다."
  const CrashPrefix := "버전 목록 조회 실패: "
  /** The engine's message for `.map` on a list value that is not an array (V8 wording). */
  const NotAnArray := "rawList.map is not a function"
  /** The engine's message for reading `reviewed` off a `null` item (V8 wording). */
  const NullItem := "Cannot read properties of null (reading 'reviewed')"

  /** `clientPage > 0 ? clientPage - 1 : 0`. */
  function UpstreamPage(clientPage: Num): nat {
    if clientPage.Int? && clientPage.v > 0 then clientPage.v - 1 else 0
  }

  /**
   * The client counts pages from 1 and the upstream from 0: page `k >= 1`
   * becomes `k - 1`; a missing page means page 1, and zero, negative, empty and
   * unreadable pages all become upstream page 0.
   */
  lemma PageTranslation(k: int, junk: string)
    requires ToNumber(junk).NaN?
    ensures k >= 1 ==> UpstreamPage(ToNumber(IntToString(k))) == k - 1
    ensures k <= 0 ==> UpstreamPage(ToNumber(IntToString(k))) == 0
    ensures UpstreamPage(ToNumber("1")) == 0
    ensures UpstreamPage(ToNumber("")) == 0
    ensures UpstreamPage(ToNumber(junk)) == 0
  {
    IntToStringRoundTrip(k);
    IntToStringRoundTrip(1);
    assert NatToString(1) == "1";
  }

  const VersionListKeys := ["ossMasterId", "version", "reviewed", "equalFlag", "page", "size", "sort", "direction"]

  /** The parameter record handed to `buildQueryString`, in its order. */
  function VersionListParams(query: map<string, string>, ossMasterId: string): seq<Param> {
    Zip(VersionListKeys, VersionListValues(query, ossMasterId))
  }

  /** The values of that record, key by key. */
  function VersionListValues(query: map<string, string>, ossMasterId: string): (vs: seq<Option<string>>)
    ensures |vs| == |VersionListKeys|
  {
    [Some(ossMasterId),
     QueryGet(query, "version"),
     QueryGet(query, "reviewed"),
     Some(QueryOr(query, "equalFlag", "N")),
     Some(IntToString(UpstreamPage(ToNumber(QueryOr(query, "page", "1"))))),
     Some(QueryOr(query, "size", "20")),
     Some(QueryOr(query, "sort", "version")),
     Some(QueryOr(query, "direction", "ASC"))]
  }

  function VersionListPath(query: map<string, string>, ossMasterId: string): string {
    "/api/v2/admin/oss-versions" + QueryString(VersionListParams(query, ossMasterId))
  }

  /**
   * What the upstream query carries: the master id, the translated page (always
   * present), the optional filters only when given non-empty, and the defaults
   * `N`, `20`, `version` and `ASC` for a missing flag, size, sort and direction.
   */
  lemma VersionListQuery(query: map<string, string>, id: string)
    requires id != ""
    ensures DistinctKeys(VersionListParams(query, id))
    ensures Lookup(KeptPairs(VersionListParams(query, id)), "ossMasterId") == Some(id)
    ensures Lookup(KeptPairs(VersionListParams(query, id)), "version") == NonEmpty(QueryGet(query, "version"))
    ensures Lookup(KeptPairs(VersionListParams(query, id)), "reviewed") == NonEmpty(QueryGet(query, "reviewed"))
    ensures Lookup(KeptPairs(VersionListParams(query, id)), "equalFlag") == NonEmpty(Some(QueryOr(query, "equalFlag", "N")))
    ensures Lookup(KeptPairs(VersionListParams(query, id)), "page")
            == Some(IntToString(UpstreamPage(ToNumber(QueryOr(query, "page", "1")))))
    ensures Lookup(KeptPairs(VersionListParams(query, id)), "size") == NonEmpty(Some(QueryOr(query, "size", "20")))
    ensures Lookup(KeptPairs(VersionListParams(query, id)), "sort") == NonEmpty(Some(QueryOr(query, "sort", "version")))
    ensures Lookup(KeptPairs(VersionListParams(query, id)), "direction") == NonEmpty(Some(QueryOr(query, "direction", "ASC")))
  {
    var vs := VersionListValues(query, id);
    VersionListKeysDistinct(query, id);
    VersionListKeysUnique();
    LookupZip(VersionListKeys, vs, 0);
    LookupZip(VersionListKeys, vs, 1);
    LookupZip(VersionListKeys, vs, 2);
    LookupZip(VersionListKeys, vs, 3);
    LookupZip(VersionListKeys, vs, 4);
    LookupZip(VersionListKeys, vs, 5);
    LookupZip(VersionListKeys, vs, 6);
    LookupZip(VersionListKeys, vs, 7);
  }

  lemma VersionListKeysDistinct(query: map<string, string>, id: string)
    ensures DistinctKeys(VersionListParams(query, id))
  {
    VersionListKeysUnique();
    ZipDistinct(VersionListKeys, VersionListValues(query, id));
  }

  lemma VersionListKeysUnique()
    ensures DistinctStrings(VersionListKeys)
  {
  }

  /** `item.reviewed === 1 || item.reviewed === '1' || item.reviewed === 'Y' ? 'Y' : 'N'`. */
  function NormalizeReviewed(raw: Option<Json>): ReviewStatus {
    if raw == Some(JNum(1)) || raw == Some(JStr("1")) || raw == Some(JStr("Y")) then Y else N
  }

  /** `item.reviewed` on a non-null item: only objects have the property. */
  function RawReviewed(item: Json): Option<Json> {
    if item.JObj? && "reviewed" in item.fields then Some(item.fields["reviewed"]) else None
  }

  /**
   * `{ ...item, reviewed }` with the normalized flag. Spreading `null` is
   * harmless; it is reading `item.reviewed` on a `null` item that throws.
   */
  function NormalizeItem(item: Json): (r: Result<Json>)
    ensures r.Fail? <==> item.JNull?
    ensures r.Ok? ==> r.value.JObj? && "reviewed" in r.value.fields
                      && r.value.fields["reviewed"] == JStr(NormalizeReviewed(RawReviewed(item)).Code())
  {
    if item.JNull? then Fail(NullItem)
    else Ok(JObj(Spread(item)["reviewed" := JStr(NormalizeReviewed(RawReviewed(item)).Code())]))
  }

  /**
   * Normalizing keeps every other property of the item, adds `reviewed` when it
   * was missing, and maps `1`, `'1'` and `'Y'` to `'Y'` and everything else
   * (`'N'`, `0`, `true`, `null`, a missing flag) to `'N'`.
   */
  lemma NormalizeItemKeepsFields(item: Json)
    requires item != JNull
    ensures NormalizeItem(item).value.fields.Keys == Spread(item).Keys + {"reviewed"}
    ensures forall k :: k in Spread(item) && k != "reviewed" ==>
              NormalizeItem(item).value.fields[k] == Spread(item)[k]
    ensures NormalizeItem(item).value.fields["reviewed"] == JStr("Y") <==>
              item.JObj? && "reviewed" in item.fields
              && item.fields["reviewed"] in {JNum(1), JStr("1"), JStr("Y")}
  {
  }

  /** Normalizing an already normalized item changes nothing. */
  lemma NormalizeItemIdempotent(item: Json)
    requires item != JNull
    ensures NormalizeItem(NormalizeItem(item).value) == NormalizeItem(item)
  {
    var out := NormalizeItem(item).value;
    var code := out.fields["reviewed"];
    assert Spread(out) == out.fields;
    assert RawReviewed(out) == Some(code);
    assert code == JStr("Y") || code == JStr("N");
    assert out.fields["reviewed" := code] == out.fields;
  }

  /** The list value: a `.map` on anything but an array throws. */
  function NormalizeList(raw: Json): (r: Result<seq<Json>>)
    ensures !raw.JArr? ==> r == Fail(NotAnArray)
    ensures raw.JArr? ==> r == MapAll(NormalizeItem, raw.items)
    ensures r.Ok? ==> raw.JArr? && forall i :: 0 <= i < |raw.items| ==> raw.items[i] != JNull
    ensures r.Ok? ==> |r.value| == |raw.items|
                      && forall i :: 0 <= i < |raw.items| ==> NormalizeItem(raw.items[i]) == Ok(r.value[i])
    ensures r.Fail? ==> r.message in {NotAnArray, NullItem}
  {
    if raw.JArr? then MapAll(NormalizeItem, raw.items) else Fail(NotAnArray)
  }

  const ListKeys := ["list", "ossVersionList", "content"]
  const CountKeys := ["count", "totalCount", "totalElements"]

  /** `messageList.list ?? messageList.ossVersionList ?? messageList.content ?? []`. */
  function ListOf(m: map<string, Json>): Json {
    FirstPresent(m, ListKeys).GetOr(JArr([]))
  }

  /** `messageList.count ?? messageList.totalCount ?? messageList.totalElements ?? 0`. */
  function CountOf(m: map<string, Json>): Json {
    FirstPresent(m, CountKeys).GetOr(JNum(0))
  }

  /** The route handler; `upstream` is what `externalFetch` did, used only when the call is made. */
  function Get(token: Option<string>, query: map<string, string>, upstream: Upstream): (x: Exchange)
    ensures !HasToken(token) ==> x == Exchange([], Unauthenticated)
    ensures HasToken(token) && QueryOr(query, "ossMasterId", "") == "" ==>
              x == Exchange([], Failure(400, MissingMasterId))
    ensures HasToken(token) && QueryOr(query, "ossMasterId", "") != "" ==>
              x == Exchange([Call(GET, VersionListPath(query, query["ossMasterId"]), token.value, None)],
                            Respond(query, upstream))
  {
    if !HasToken(token) then Exchange([], Unauthenticated)
    else
      var ossMasterId := QueryOr(query, "ossMasterId", "");
      if ossMasterId == "" then Exchange([], Failure(400, MissingMasterId))
      else
        var calls := [Call(GET, VersionListPath(query, ossMasterId), token.value, None)];
        Exchange(calls, Respond(query, upstream))
  }

  /** Everything after the upstream call, inside the route's `try`. */
  function Respond(query: map<string, string>, upstream: Upstream): (r: Reply)
    ensures upstream.Threw? ==> r == Crashed(CrashPrefix, upstream.message)
    ensures upstream.Returned? && !upstream.response.success ==> r == UpstreamFailure(upstream.response.code)
    ensures upstream.Succeeded() && NormalizeList(ListOf(upstream.response.messageList)).Fail? ==>
              r == Crashed(CrashPrefix, NormalizeList(ListOf(upstream.response.messageList)).message)
    ensures r.status in {200, 401, 500, 502}
    ensures r.status == 200 <==> Succeeded(r)
    ensures Succeeded(r) <==> upstream.Succeeded() && NormalizeList(ListOf(upstream.response.messageList)).Ok?
  {
    match upstream
    case Threw(message) => Crashed(CrashPrefix, message)
    case Returned(result) =>
      if !result.success then UpstreamFailure(result.code)
      else
        match NormalizeList(ListOf(result.messageList))
        case Fail(message) => Crashed(CrashPrefix, message)
        case Ok(versions) =>
          SuccessReply(JArr(versions),
                       Some(MetaBody(CountOf(result.messageList),
                                     ToNumber(QueryOr(query, "page", "0")),
                                     ToNumber(QueryOr(query, "size", "20")))))
  }

  /**
   * A successful reply lists exactly the upstream's items, in order, each an
   * object whose `reviewed` is `'Y'` or `'N'`; its meta echoes the client's
   * page unconverted (0 when missing) and the total from the first present
   * count key.
   */
  lemma SuccessfulReply(query: map<string, string>, upstream: Upstream)
    requires Succeeded(Respond(query, upstream))
    ensures upstream.Succeeded() && ListOf(upstream.response.messageList).JArr?
    ensures var data := Respond(query, upstream).body.fields["data"];
            var raw := ListOf(upstream.response.messageList).items;
            data.JArr? && |data.items| == |raw|
            && forall i :: 0 <= i < |raw| ==>
                 data.items[i] == NormalizeItem(raw[i]).value
                 && data.items[i].JObj? && "reviewed" in data.items[i].fields
                 && data.items[i].fields["reviewed"] in {JStr("Y"), JStr("N")}
    ensures Respond(query, upstream).body.fields["meta"]
            == MetaBody(CountOf(upstream.response.messageList),
                        ToNumber(QueryOr(query, "page", "0")), ToNumber(QueryOr(query, "size", "20")))
  {
    var m := SuccessfulRespond(query, upstream);
    NormalizedFlags(ListOf(m).items, NormalizeList(ListOf(m)).value);
  }

  /** A successful reply came from a successful upstream answer whose list normalized. */
  lemma SuccessfulRespond(query: map<string, string>, upstream: Upstream) returns (m: map<string, Json>)
    requires Succeeded(Respond(query, upstream))
    ensures upstream.Succeeded() && m == upstream.response.messageList
    ensures ListOf(m).JArr? && NormalizeList(ListOf(m)).Ok?
    ensures Respond(query, upstream)
            == SuccessReply(JArr(NormalizeList(ListOf(m)).value),
                            Some(MetaBody(CountOf(m), ToNumber(QueryOr(query, "page", "0")),
                                          ToNumber(QueryOr(query, "size", "20")))))
  {
    m := upstream.response.messageList;
  }

  /** Every item that normalized carries a `reviewed` of `'Y'` or `'N'`. */
  lemma NormalizedFlags(items: seq<Json>, data: seq<Json>)
    requires |data| == |items|
    requires forall i :: 0 <= i < |items| ==> NormalizeItem(items[i]) == Ok(data[i])
    ensures forall i :: 0 <= i < |items| ==>
              data[i].JObj? && "reviewed" in data[i].fields
              && data[i].fields["reviewed"] in {JStr("Y"), JStr("N")}
  {
    forall i | 0 <= i < |items|
      ensures data[i].JObj? && "reviewed" in data[i].fields
              && data[i].fields["reviewed"] in {JStr("Y"), JStr("N")}
    {
      NormalizedItemFlag(items[i], data[i]);
    }
  }

  lemma NormalizedItemFlag(item: Json, out: Json)
    requires NormalizeItem(item) == Ok(out)
    ensures out.JObj? && "reviewed" in out.fields && out.fields["reviewed"] in {JStr("Y"), JStr("N")}
  {
    var status := NormalizeReviewed(RawReviewed(item));
    assert out.fields["reviewed"] == JStr(status.Code());
    assert status.Code() == "Y" || status.Code() == "N";
  }
}
