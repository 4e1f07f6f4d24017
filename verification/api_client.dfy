/**
 * The browser-side API client (src/lib/api-client.ts): the paths its calls go
 * to on the local routes, its own query-string builder, the arguments of the
 * license search, and the decoding of the token's payload for display.
 *
 * Sending a request and reading its JSON (`apiFetch`) is not modelled: the
 * functions here produce the path a call goes to and the record it sends.
 */
module ApiClient {
  import opened JsCore
  import opened Types
  import opened UrlEncoding
  import opened ExternalApi
  import opened RouteCommon

  // ---------------------------------------------------------------------------
  // toQueryString

  /** One entry of a parameter record: its key and its value, `None` when undefined. */
  type Entry = (string, Option<Json>)

  /** `value !== undefined && value !== null && value !== ''`. */
  predicate Sent(e: Entry) {
    e.1.Some? && e.1.value != JNull && e.1.value != JStr("")
  }

  /** The keys of a record are distinct. */
  predicate DistinctEntryKeys(entries: seq<Entry>) {
    forall i, j :: 0 <= i < j < |entries| ==> entries[i].0 != entries[j].0
  }

  /** The pairs the builder ends up holding: each sent entry with `String(value)`, in order. */
  function SentPairs(entries: seq<Entry>): (r: seq<(string, string)>)
    ensures r == [] <==> forall i :: 0 <= i < |entries| ==> !Sent(entries[i])
    ensures forall q :: q in r ==> exists i :: 0 <= i < |entries| && entries[i].0 == q.0
  {
    if entries == [] then []
    else
      var rest := SentPairs(entries[1..]);
      assert forall i :: 1 <= i < |entries| ==> entries[i] == entries[1..][i - 1];
      assert forall q :: q in rest ==> exists i :: 0 <= i < |entries| && entries[i].0 == q.0 by {
        forall q | q in rest ensures exists i :: 0 <= i < |entries| && entries[i].0 == q.0 {
          var j :| 0 <= j < |entries[1..]| && entries[1..][j].0 == q.0;
          assert entries[j + 1].0 == q.0;
        }
      }
      if Sent(entries[0]) then [(entries[0].0, JsString(entries[0].1.value))] + rest else rest
  }

  lemma {:induction false} SentPairsAppend(entries: seq<Entry>, e: Entry)
    ensures SentPairs(entries + [e]) == SentPairs(entries) + (if Sent(e) then [(e.0, JsString(e.1.value))] else [])
  {
    if entries == [] {
      assert entries + [e] == [e];
    } else {
      assert (entries + [e])[1..] == entries[1..] + [e];
      SentPairsAppend(entries[1..], e);
    }
  }

  /** The pair one entry adds to the builder: none when it is not sent. */
  function SentPair(e: Entry): seq<(string, string)> {
    if Sent(e) then [(e.0, JsString(e.1.value))] else []
  }

  /** A four-entry record sends each entry's pair, in order. */
  lemma SentPairsOfFour(a: Entry, b: Entry, c: Entry, d: Entry)
    ensures SentPairs([a, b, c, d]) == SentPair(a) + SentPair(b) + (SentPair(c) + SentPair(d))
  {
    SentPairsOfThree(b, c, d);
    SentPairsCons(a, [b, c, d]);
    assert [a] + [b, c, d] == [a, b, c, d];
    AppendAssoc(SentPair(a), SentPair(b), SentPair(c) + SentPair(d));
  }

  lemma AppendAssoc<T>(x: seq<T>, y: seq<T>, z: seq<T>)
    ensures x + (y + z) == x + y + z
  {
  }

  lemma SentPairsOfThree(b: Entry, c: Entry, d: Entry)
    ensures SentPairs([b, c, d]) == SentPair(b) + (SentPair(c) + SentPair(d))
  {
    SentPairsOfTwo(c, d);
    SentPairsCons(b, [c, d]);
    assert [b] + [c, d] == [b, c, d];
  }

  lemma SentPairsOfTwo(c: Entry, d: Entry)
    ensures SentPairs([c, d]) == SentPair(c) + SentPair(d)
  {
    SentPairsCons(d, []);
    assert [d] + [] == [d];
    assert SentPair(d) + [] == SentPair(d);
    SentPairsCons(c, [d]);
    assert [c] + [d] == [c, d];
  }

  lemma SentPairsCons(e: Entry, rest: seq<Entry>)
    ensures SentPairs([e] + rest) == SentPair(e) + SentPairs(rest)
  {
    assert ([e] + rest)[1..] == rest;
  }

  /** A review filter is sent only when one status is chosen. */
  lemma SentFilter(filter: ReviewFilter)
    ensures SentPair(("reviewed", Defined(filter.Code())))
            == if filter.Only? then [("reviewed", filter.status.Code())] else []
  {
    if filter.Only? {
      assert filter.Code() != "";
    }
  }

  /** A text is sent only when it is not empty. */
  lemma SentText(k: string, t: string)
    ensures SentPair((k, Defined(t))) == if t != "" then [(k, t)] else []
  {
  }

  /** An integer is always sent, as its decimal text. */
  lemma SentNumber(k: string, n: int)
    ensures SentPair((k, Some(JNum(n)))) == [(k, IntToString(n))]
  {
  }

  /** Under distinct keys, the next entry's key is not yet in the builder. */
  lemma SentKeyIsNew(entries: seq<Entry>, i: nat)
    requires DistinctEntryKeys(entries) && i < |entries|
    ensures !HasKey(SentPairs(entries[..i]), entries[i].0)
  {
  }

  /** What `toQueryString` returns: `''` when nothing is sent, else `?` and the serialized pairs. */
  function ClientQueryString(entries: seq<Entry>): (qs: string)
    ensures qs == "" <==> forall i :: 0 <= i < |entries| ==> !Sent(entries[i])
    ensures qs != "" ==> qs[0] == '?' && Split(qs[1..], '&') == Segments(SentPairs(entries))
  {
    var pairs := SentPairs(entries);
    if pairs == [] then ""
    else
      SerializeSplits(pairs);
      var qs := "?" + Serialize(pairs);
      assert qs[1..] == Serialize(pairs);
      qs
  }

  /**
   * `toQueryString`: feeds the entries that are sent one by one into a
   * `URLSearchParams` builder with `set`, then serializes it.
   */
  method ToQueryString(params: seq<Entry>) returns (qs: string)
    requires DistinctEntryKeys(params)
    ensures qs == ClientQueryString(params)
  {
    var builder: seq<(string, string)> := [];
    var i := 0;
    while i < |params|
      invariant 0 <= i <= |params|
      invariant builder == SentPairs(params[..i])
    {
      var (key, value) := params[i];
      if value.Some? && value.value != JNull && value.value != JStr("") {
        SentKeyIsNew(params, i);
        builder := SetParam(builder, key, JsString(value.value));
      }
      SentPairsAppend(params[..i], params[i]);
      assert params[..i + 1] == params[..i] + [params[i]];
      i := i + 1;
    }
    assert params[..i] == params;
    var text := Serialize(builder);
    qs := if text != "" then "?" + text else "";
  }

  /** A string, number, boolean or null: the values the typed parameter records hold. */
  predicate Scalar(v: Json) {
    v.JNull? || v.JBool? || v.JNum? || v.JStr?
  }

  /** The same record as `buildQueryString` receives it: values already turned into strings. */
  function AsParams(entries: seq<Entry>): (ps: seq<Param>)
    ensures |ps| == |entries|
    ensures forall i :: 0 <= i < |entries| ==> ps[i].0 == entries[i].0
  {
    seq(|entries|, i requires 0 <= i < |entries| =>
      (entries[i].0, if entries[i].1.None? || entries[i].1.value == JNull then None
                     else Some(JsString(entries[i].1.value))))
  }

  /**
   * On records of strings and numbers, `toQueryString` and the server's
   * `buildQueryString` produce the same query string.
   */
  lemma SameAsBuildQueryString(entries: seq<Entry>)
    requires forall i :: 0 <= i < |entries| && entries[i].1.Some? ==> Scalar(entries[i].1.value)
    ensures ClientQueryString(entries) == QueryString(AsParams(entries))
  {
    SentPairsAreKeptPairs(entries);
  }

  lemma {:induction false} SentPairsAreKeptPairs(entries: seq<Entry>)
    requires forall i :: 0 <= i < |entries| && entries[i].1.Some? ==> Scalar(entries[i].1.value)
    ensures SentPairs(entries) == KeptPairs(AsParams(entries))
  {
    if entries != [] {
      var e := entries[0];
      SentPairsAreKeptPairs(entries[1..]);
      assert AsParams(entries)[1..] == AsParams(entries[1..]);
      if e.1.Some? && e.1.value.JNum? {
        assert |IntToString(e.1.value.n)| >= 1;
      }
    }
  }

  // ---------------------------------------------------------------------------
  // Calls as the client state sees them

  /** `!token` is false: a token that is present and not empty. */
  predicate Truthy(token: Option<string>) {
    token.Some? && token.value != ""
  }

  /** How an awaited client call ended: the envelope it resolved with, or what it threw (`None` for a non-`Error`). */
  datatype Settled<T> = Resolved(response: ApiResponse<T>) | Threw(error: Option<string>) {
    /** The call resolved with `success: true`. */
    predicate Succeeded() {
      Resolved? && response.success
    }
  }

  const UnknownError := "알 수 없는 오류"

  /** `error instanceof Error ? error.message : '알 수 없는 오류'`. */
  function ThrownMessage(error: Option<string>): string {
    error.GetOr(UnknownError)
  }

  // ---------------------------------------------------------------------------
  // Request paths

  /** `fetchOssList`: `/api/oss` and the query string of the parameter record. */
  function OssListPath(params: seq<Entry>): string {
    "/api/oss" + ClientQueryString(params)
  }

  /** `fetchOssVersions`: `/api/oss-versions` and the query string of the parameter record. */
  function OssVersionsPath(params: seq<Entry>): string {
    "/api/oss-versions" + ClientQueryString(params)
  }

  /** `fetchOssDetail` and `updateOssMaster`. */
  function OssDetailPath(id: int): string {
    "/api/oss/" + IntToString(id)
  }

  /** `fetchOssVersion` and `updateOssVersion`. */
  function OssVersionPath(id: int): string {
    "/api/oss-versions/" + IntToString(id)
  }

  /**
   * Each record has a path of its own: two ids share a path only when they
   * are equal, and a master's path is never a version's.
   */
  lemma ItemPathsIdentifyIds(a: int, b: int)
    ensures OssDetailPath(a) == OssDetailPath(b) <==> a == b
    ensures OssVersionPath(a) == OssVersionPath(b) <==> a == b
    ensures OssDetailPath(a) != OssVersionPath(b)
  {
    if OssDetailPath(a) == OssDetailPath(b) {
      assert IntToString(a) == OssDetailPath(a)[9..];
      IntToStringInjective(a, b);
    }
    if OssVersionPath(a) == OssVersionPath(b) {
      assert IntToString(a) == OssVersionPath(a)[18..];
      IntToStringInjective(a, b);
    }
    assert OssDetailPath(a)[8] != OssVersionPath(b)[8];
  }

  const BulkDeletePath := "/api/oss-versions/bulk-delete"

  /** `bulkDeleteVersions`: the request `{ versionIds }` posted to the bulk-delete route. */
  function BulkDeleteBody(versionIds: seq<int>): Json {
    JObj(map["versionIds" := JArr(seq(|versionIds|, i requires 0 <= i < |versionIds| => JNum(versionIds[i])))])
  }

  /**
   * The bulk-delete route accepts the client's request exactly when the id
   * list is not empty, and then deletes exactly those ids, in order.
   */
  lemma BulkDeleteBodyChecked(versionIds: seq<int>)
    ensures IdList(Destructure(BulkDeleteBody(versionIds), "versionIds").value).Some? <==> versionIds != []
    ensures var ids := IdList(Destructure(BulkDeleteBody(versionIds), "versionIds").value);
            ids.Some? ==> |ids.value| == |versionIds|
                          && forall i :: 0 <= i < |versionIds| ==> ids.value[i] == JNum(versionIds[i])
  {
  }

  /** A value that is `undefined` when falsy: `s || undefined` for a string. */
  function Defined(s: string): (v: Option<Json>)
    ensures v.None? <==> s == ""
  {
    if s == "" then None else Some(JStr(s))
  }

  // ---------------------------------------------------------------------------
  // fetchLicenses

  const LicensesPrefix := "/api/licenses?"

  /** The four parameters `fetchLicenses` always sends, in order; none is ever dropped. */
  function LicenseSearchPairs(name: string, page: int, size: int, exactMatch: bool): seq<(string, string)> {
    [("name", name), ("page", IntToString(page)), ("size", IntToString(size)),
     ("exactMatch", FlagText(exactMatch))]
  }

  /** `fetchLicenses(token, name, page = 0, size = 20, exactMatch = false)`. */
  function FetchLicensesPath(name: string, page: int := 0, size: int := 20, exactMatch: bool := false): (path: string)
  {
    LicensesPrefix + Serialize(LicenseSearchPairs(name, page, size, exactMatch))
  }

  /**
   * The license search always sends exactly four parameters, the name even
   * when it is empty, each as its own `&`-separated segment.
   */
  lemma LicenseSearchQuery(name: string, page: int, size: int, exactMatch: bool)
    ensures var q := FetchLicensesPath(name, page, size, exactMatch)[|LicensesPrefix|..];
            Split(q, '&') == [
              "name" + "=" + FormEncode(name),
              "page" + "=" + FormEncode(IntToString(page)),
              "size" + "=" + FormEncode(IntToString(size)),
              "exactMatch" + "=" + FlagText(exactMatch)]
  {
    var pairs := LicenseSearchPairs(name, page, size, exactMatch);
    SerializeSplits(pairs);
    assert FetchLicensesPath(name, page, size, exactMatch)[|LicensesPrefix|..] == Serialize(pairs);
    SearchKeysAlphaNumeric();
    KeySegment("name", name);
    KeySegment("page", IntToString(page));
    KeySegment("size", IntToString(size));
    FlagSegment(exactMatch);
    FourSegments(pairs[0], pairs[1], pairs[2], pairs[3]);
  }

  lemma FourSegments(a: (string, string), b: (string, string), c: (string, string), d: (string, string))
    ensures Segments([a, b, c, d]) == [Segment(a), Segment(b), Segment(c), Segment(d)]
  {
  }

  /** `String(exactMatch)`. */
  function FlagText(b: bool): string {
    if b then "true" else "false"
  }

  /** Computation helper: the three search keys are plain ASCII words. */
  lemma SearchKeysAlphaNumeric()
    ensures AlphaNumericText("name") && AlphaNumericText("page") && AlphaNumericText("size")
  {
  }

  /** An alphanumeric key is sent as it is, followed by its encoded value. */
  lemma KeySegment(k: string, v: string)
    requires AlphaNumericText(k)
    ensures Segment((k, v)) == k + "=" + FormEncode(v)
  {
    FormEncodeAlphaNumeric(k);
    PlainKeySegment(k, v);
  }

  lemma FlagSegment(b: bool)
    ensures Segment(("exactMatch", FlagText(b))) == "exactMatch" + "=" + FlagText(b)
  {
    ExactMatchKey();
    FlagTextPlain(b);
    PlainKeySegment("exactMatch", FlagText(b));
  }

  /** Computation helper: the key `exactMatch` serializes as it is. */
  lemma ExactMatchKey()
    ensures FormEncode("exactMatch") == "exactMatch"
  {
    ExactMatchAlphaNumeric();
    FormEncodeAlphaNumeric("exactMatch");
  }

  /** Computation helper: `exactMatch` is a plain ASCII word. */
  lemma ExactMatchAlphaNumeric()
    ensures AlphaNumericText("exactMatch")
  {
  }

  /** Computation helper: `true` and `false` serialize as they are. */
  lemma FlagTextPlain(b: bool)
    ensures FormEncode(FlagText(b)) == FlagText(b)
  {
    if b { FormEncodeAlphaNumeric("true"); } else { FormEncodeAlphaNumeric("false"); }
  }

  lemma PlainKeySegment(k: string, v: string)
    requires FormEncode(k) == k
    ensures Segment((k, v)) == k + "=" + FormEncode(v)
  {
  }

  /**
   * With its defaults the license search asks for the first page of twenty,
   * without exact matching.
   */
  lemma DefaultLicenseSearch(name: string)
    ensures Split(FetchLicensesPath(name)[|LicensesPrefix|..], '&')
            == ["name" + "=" + FormEncode(name), "page" + "=" + "0", "size" + "=" + "20", "exactMatch" + "=" + "false"]
  {
    LicenseSearchQuery(name, 0, 20, false);
    DefaultNumbers();
  }

  /** Computation helper: the default page and size serialize as `0` and `20`. */
  lemma DefaultNumbers()
    ensures FormEncode(IntToString(0)) == "0" && FormEncode(IntToString(20)) == "20"
  {
    assert IntToString(0) == "0";
    assert NatToString(2) == "2" && NatToString(20) == "20";
    FormEncodeAlphaNumeric("0");
    FormEncodeAlphaNumeric("20");
  }

  // ---------------------------------------------------------------------------
  // parseUserInfoFromToken

  /** `payload[k] ?? ''`. */
  function Claim(m: map<string, Json>, k: string): (v: Json)
    ensures k in m && m[k] != JNull ==> v == m[k]
    ensures !(k in m && m[k] != JNull) ==> v == JStr("")
  {
    Field(m, k).GetOr(JStr(""))
  }

  /**
   * `parseUserInfoFromToken`. The token must have the three dot-separated
   * parts of a compact JWS; the middle one is decoded and read, nothing is
   * verified. `decode` stands for `JSON.parse(atob(part))`, `None` when either
   * throws; reading a property of a `null` payload throws too, and every
   * throw yields `null`.
   */
  function ParseUserInfoFromToken(token: string, decode: string -> Option<Json>): (r: Option<UserInfo>)
    ensures r.Some? ==> |Split(token, '.')| == 3
    ensures |Split(token, '.')| == 3 ==>
              (r.Some? <==> decode(Split(token, '.')[1]).Some? && decode(Split(token, '.')[1]).value != JNull)
    ensures r.Some? && !decode(Split(token, '.')[1]).value.JObj? ==> r.value == UserInfo(JStr(""), JStr(""), JStr(""))
    ensures |Split(token, '.')| == 3 && decode(Split(token, '.')[1]).Some? && decode(Split(token, '.')[1]).value.JObj? ==>
              var m := decode(Split(token, '.')[1]).value.fields;
              r == Some(UserInfo(Claim(m, "userId"), Claim(m, "companyName"), Claim(m, "key")))
  {
    var parts := Split(token, '.');
    if |parts| != 3 then None
    else
      match decode(parts[1])
      case None => None
      case Some(payload) =>
        match payload
        case JNull => None
        case JObj(m) => Some(UserInfo(Claim(m, "userId"), Claim(m, "companyName"), Claim(m, "key")))
        case _ => Some(UserInfo(JStr(""), JStr(""), JStr("")))
  }

  /** A token with other than exactly two dots is rejected. */
  lemma TokenNeedsThreeParts(token: string, decode: string -> Option<Json>)
    requires Count(token, '.') != 2
    ensures ParseUserInfoFromToken(token, decode).None?
  {
    SplitCount(token, '.');
  }

  /**
   * Only the payload part is read: the header and the signature can be
   * anything without a dot, so a token is never verified.
   */
  lemma SignatureNotVerified(header: string, payload: string, signature: string, decode: string -> Option<Json>)
    requires '.' !in header && '.' !in payload && '.' !in signature
    ensures ParseUserInfoFromToken(header + "." + payload + "." + signature, decode)
            == ParseUserInfoFromToken("." + payload + ".", decode)
  {
    ThreeParts(header, payload, signature);
    ThreeParts("", payload, "");
    assert "" + "." + payload + "." + "" == "." + payload + ".";
  }

  lemma ThreeParts(a: string, b: string, c: string)
    requires '.' !in a && '.' !in b && '.' !in c
    ensures Split(a + "." + b + "." + c, '.') == [a, b, c]
  {
    assert Join([b, c], '.') == b + "." + c;
    assert Join([a, b, c], '.') == a + "." + b + "." + c;
    JoinSplit([a, b, c], '.');
  }
}
