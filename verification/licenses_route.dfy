/**
 * `GET /api/licenses` (src/app/api/licenses/route.ts): searches licenses by
 * name. The upstream query is written out by hand: exact matching unless the
 * client says `exactMatch=false`, page and size inserted as given, and a
 * `name` filter, percent-encoded, only when the trimmed name is not blank.
 * Each item is cut down to its `id` and `name`.
 */
module LicensesRoute {
  import opened JsCore
  import opened Types
  import opened ExternalApi
  import opened UrlEncoding
  import opened RouteCommon

  const CrashPrefix := "라이선스 조회 실패: "
  /** The engine's message for `.map` on a list value that is not an array (V8 wording). */
  const NotAnArray := "rawList.map is not a function"
  /** The engine's message for reading `id` off a `null` item (V8 wording). */
  const NullItem := "Cannot read properties of null (reading 'id')"

  /** `searchParams.get('exactMatch') !== 'false' ? 'Y' : 'N'`. */
  function EqualFlag(query: map<string, string>): string {
    if QueryGet(query, "exactMatch") == Some("false") then "N" else "Y"
  }

  /** The `&name=...` suffix: present only for a name that is not blank after trimming. */
  function NameParam(name: string): string {
    NameFilter(Trim(name))
  }

  function NameFilter(t: string): string {
    if t != "" then "&" + NamePair(t) else ""
  }

  /** `name=` followed by the percent-encoded name. */
  function NamePair(t: string): string {
    "name=" + EncodeUriComponent(t)
  }

  /** The fixed part of the query: flag, page, size and the sort order. */
  function FixedParams(flag: string, page: string, size: string): string {
    "equalFlag=" + flag + "&page=" + page + "&size=" + size + "&sort=id&direction=ASC"
  }

  /** The query string of the upstream call, `?` included. */
  function LicenseQuery(query: map<string, string>): string {
    "?" + FixedParams(EqualFlag(query), QueryOr(query, "page", "0"), QueryOr(query, "size", "20"))
    + NameParam(QueryOr(query, "name", ""))
  }

  function LicensePath(query: map<string, string>): string {
    "/api/v2/admin/licenses" + LicenseQuery(query)
  }

  /** The parameters the query is meant to carry, in order. */
  function LicenseSegments(query: map<string, string>): seq<string> {
    FixedSegments(EqualFlag(query), QueryOr(query, "page", "0"), QueryOr(query, "size", "20"))
    + NameSegments(QueryOr(query, "name", ""))
  }

  function FixedSegments(flag: string, page: string, size: string): seq<string> {
    ["equalFlag=" + flag, "page=" + page, "size=" + size, "sort=id", "direction=ASC"]
  }

  function NameSegments(name: string): seq<string> {
    NameSegmentsOf(Trim(name))
  }

  function NameSegmentsOf(t: string): seq<string> {
    if t != "" then [NamePair(t)] else []
  }

  /**
   * The encoded name cannot add or break parameters: as long as page and size
   * carry no `&` of their own, the query splits on `&` into exactly the five
   * fixed parameters, followed by the name filter precisely when the trimmed
   * name is not blank.
   */
  lemma LicenseQuerySegments(query: map<string, string>)
    requires '&' !in QueryOr(query, "page", "0") && '&' !in QueryOr(query, "size", "20")
    ensures Split(LicenseQuery(query)[1..], '&') == LicenseSegments(query)
  {
    var flag := EqualFlag(query);
    assert '&' !in flag;
    QuerySplits(flag, QueryOr(query, "page", "0"), QueryOr(query, "size", "20"), Trim(QueryOr(query, "name", "")));
  }

  lemma QuerySplits(flag: string, page: string, size: string, t: string)
    requires '&' !in flag && '&' !in page && '&' !in size
    ensures Split(("?" + FixedParams(flag, page, size) + NameFilter(t))[1..], '&')
            == FixedSegments(flag, page, size) + NameSegmentsOf(t)
  {
    var fixed, named := FixedSegments(flag, page, size), NameSegmentsOf(t);
    FixedSegmentsJoin(flag, page, size);
    NameSegmentsJoin(fixed, t);
    NameSegmentsFree(t);
    FreeOfSeparator(fixed, named, '&');
    DropLeadingChar('?', FixedParams(flag, page, size), NameFilter(t));
    JoinSplit(fixed + named, '&');
  }

  lemma FreeOfSeparator(a: seq<string>, b: seq<string>, sep: char)
    requires forall i :: 0 <= i < |a| ==> sep !in a[i]
    requires forall i :: 0 <= i < |b| ==> sep !in b[i]
    ensures forall i :: 0 <= i < |a + b| ==> sep !in (a + b)[i]
  {
  }

  lemma DropLeadingChar(c: char, a: string, b: string)
    ensures ([c] + a + b)[1..] == a + b
  {
  }

  lemma FixedSegmentsJoin(flag: string, page: string, size: string)
    requires '&' !in flag && '&' !in page && '&' !in size
    ensures Join(FixedSegments(flag, page, size), '&') == FixedParams(flag, page, size)
    ensures forall i :: 0 <= i < 5 ==> '&' !in FixedSegments(flag, page, size)[i]
  {
    var ss := FixedSegments(flag, page, size);
    assert Join(ss[3..], '&') == "sort=id&direction=ASC";
    assert Join(ss[2..], '&') == "size=" + size + "&sort=id&direction=ASC";
    assert Join(ss[1..], '&') == "page=" + page + "&size=" + size + "&sort=id&direction=ASC";
  }

  lemma NameSegmentsJoin(fixed: seq<string>, t: string)
    requires |fixed| >= 1
    ensures Join(fixed + NameSegmentsOf(t), '&') == Join(fixed, '&') + NameFilter(t)
  {
    if t != "" {
      JoinAppend(fixed, NamePair(t), '&');
    } else {
      assert fixed + NameSegmentsOf(t) == fixed;
    }
  }

  /** The name parameter carries no `&`: the encoding escapes it. */
  lemma NameSegmentsFree(t: string)
    ensures forall i :: 0 <= i < |NameSegmentsOf(t)| ==> '&' !in NameSegmentsOf(t)[i]
  {
    if t != "" {
      var e := EncodeUriComponent(t);
      EncodedHasNoDelimiters(e);
      NameSegmentHasNoAmpersand(e);
    }
  }

  lemma NameSegmentHasNoAmpersand(e: string)
    requires '&' !in e
    ensures '&' !in "name=" + e
  {
    var s := "name=" + e;
    forall i | 0 <= i < |s| ensures s[i] != '&' {
      if i >= 5 { assert s[i] == e[i - 5]; }
    }
  }

  /** `messageList.list ?? []`. */
  function LicenseList(m: map<string, Json>): Json {
    Field(m, "list").GetOr(JArr([]))
  }

  /**
   * `{ id: item.id, name: item.name }` as it is serialized: a property that is
   * undefined is dropped, one that is `null` is kept; reading off `null` throws.
   */
  function Project(item: Json): (r: Result<Json>)
    ensures r.Fail? <==> item.JNull?
    ensures r.Ok? ==> r.value.JObj? && r.value.fields.Keys <= {"id", "name"}
  {
    match item
    case JNull => Fail(NullItem)
    case JObj(m) => Ok(JObj(map k | k in m && (k == "id" || k == "name") :: m[k]))
    case _ => Ok(JObj(map[]))
  }

  /**
   * A projected object has `id` and `name` exactly when the item had them,
   * with the same values, and projecting twice is projecting once.
   */
  lemma ProjectKeepsIdAndName(item: Json, k: string)
    requires item != JNull && k in {"id", "name"}
    ensures k in Project(item).value.fields <==> item.JObj? && k in item.fields
    ensures k in Project(item).value.fields ==> Project(item).value.fields[k] == item.fields[k]
    ensures Project(Project(item).value) == Project(item)
  {
    var out := Project(item).value;
    assert (map k | k in out.fields && (k == "id" || k == "name") :: out.fields[k]) == out.fields;
  }

  /** The projected list, or the error the `.map` call throws. */
  function ProjectList(raw: Json): (r: Result<seq<Json>>)
    ensures !raw.JArr? ==> r == Fail(NotAnArray)
    ensures raw.JArr? ==> r == MapAll(Project, raw.items)
    ensures r.Ok? ==> raw.JArr? && forall i :: 0 <= i < |raw.items| ==> raw.items[i] != JNull
  {
    if raw.JArr? then MapAll(Project, raw.items) else Fail(NotAnArray)
  }

  /** The route handler; `upstream` is what `externalFetch` did, used only when the call is made. */
  function Get(token: Option<string>, query: map<string, string>, upstream: Upstream): (x: Exchange)
    ensures !HasToken(token) ==> x == Exchange([], Unauthenticated)
    ensures HasToken(token) ==> x == Exchange([Call(GET, LicensePath(query), token.value, None)], Respond(upstream))
  {
    if !HasToken(token) then Exchange([], Unauthenticated)
    else Exchange([Call(GET, LicensePath(query), token.value, None)], Respond(upstream))
  }

  /** Everything after the upstream call, inside the route's `try`. */
  function Respond(upstream: Upstream): (r: Reply)
    ensures upstream.Threw? ==> r == Crashed(CrashPrefix, upstream.message)
    ensures upstream.Returned? && !upstream.response.success ==> r == UpstreamFailure(upstream.response.code)
    ensures upstream.Succeeded() && ProjectList(LicenseList(upstream.response.messageList)).Fail? ==>
              r == Crashed(CrashPrefix, ProjectList(LicenseList(upstream.response.messageList)).message)
    ensures r.status in {200, 401, 500, 502}
    ensures Succeeded(r) <==> upstream.Succeeded() && ProjectList(LicenseList(upstream.response.messageList)).Ok?
    ensures Succeeded(r) ==> r == SuccessReply(JArr(ProjectList(LicenseList(upstream.response.messageList)).value), None)
  {
    match upstream
    case Threw(message) => Crashed(CrashPrefix, message)
    case Returned(result) =>
      if !result.success then UpstreamFailure(result.code)
      else
        match ProjectList(LicenseList(result.messageList))
        case Fail(message) => Crashed(CrashPrefix, message)
        case Ok(licenses) => SuccessReply(JArr(licenses), None)
  }

  /**
   * Exact matching is the default: the upstream sees `equalFlag=N` only when
   * the client sent exactly `exactMatch=false`.
   */
  lemma ExactMatchByDefault(query: map<string, string>)
    ensures LicenseQuery(query)[..12] == "?equalFlag=" + (if QueryGet(query, "exactMatch") == Some("false") then "N" else "Y")
  {
    var flag, page, size := EqualFlag(query), QueryOr(query, "page", "0"), QueryOr(query, "size", "20");
    FixedParamsHead(flag, page, size);
    QueryHead(FixedParams(flag, page, size), NameParam(QueryOr(query, "name", "")), "equalFlag=" + flag);
  }

  /** The fixed parameters open with the one-letter `equalFlag`. */
  lemma FixedParamsHead(flag: string, page: string, size: string)
    requires |flag| == 1
    ensures FixedParams(flag, page, size)[..11] == "equalFlag=" + flag
  {
    var head := "equalFlag=" + flag;
    assert |head| == 11;
    PrefixOfAppend(head, "&page=", 11);
    PrefixOfAppend(head + "&page=", page, 11);
    PrefixOfAppend(head + "&page=" + page, "&size=", 11);
    PrefixOfAppend(head + "&page=" + page + "&size=", size, 11);
    PrefixOfAppend(head + "&page=" + page + "&size=" + size, "&sort=id&direction=ASC", 11);
  }

  /** A query string's first characters come from its fixed part, whatever name follows. */
  lemma QueryHead(fixed: string, name: string, head: string)
    requires |head| == 11 && |fixed| >= 11 && fixed[..11] == head
    ensures ("?" + fixed + name)[..12] == "?" + head
  {
    PrefixOfAppend("?" + fixed, name, 12);
    assert ("?" + fixed)[..12] == "?" + fixed[..11];
  }

  /** A prefix of a concatenation that fits in its left part is a prefix of that part. */
  lemma PrefixOfAppend(a: string, b: string, k: nat)
    requires k <= |a|
    ensures (a + b)[..k] == a[..k]
  {
  }
}
