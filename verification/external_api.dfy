/**
 * The upstream client (src/lib/external-api.ts): how one HTTP exchange with the
 * upstream service is turned into an `ExternalResponse`, the query-string
 * builder that drops empty values, and the error-code messages.
 *
 * The network itself is not modelled: what the exchange produced (a reply with
 * its status and body, an abort raised by the 30-second timer, or another
 * exception) is the input of `Classify`.
 */
module ExternalApi {
  import opened JsCore
  import opened Types
  import opened UrlEncoding

  /** What reading the body of a 2xx reply as JSON produced. */
  datatype BodyRead =
    | Parsed(response: ExternalResponse)
    | Unparsable(message: string)
    | ReadAborted

  /** A reply: its status, its text (None when reading it failed) and its JSON body. */
  datatype HttpReply = HttpReply(status: int, text: Option<string>, body: BodyRead)

  /** How one `fetch` ended. */
  datatype FetchEvent =
    | Replied(reply: HttpReply)
    | Aborted
    | NetworkError(message: string)

  /** What `externalFetch` does: resolve with a response or throw an error with a message. */
  datatype Upstream = Returned(response: ExternalResponse) | Threw(message: string) {
    /** The call resolved with `success: true`. */
    predicate Succeeded() {
      Returned? && response.success
    }
  }

  predicate IsOk(status: int) {
    200 <= status <= 299
  }

  const TimeoutResponse := ExternalResponse("TIMEOUT", map[], false)

  /** `externalFetch`'s decision chain on the outcome of one exchange. */
  function Classify(e: FetchEvent): (r: Upstream)
    ensures e.Aborted? ==> r == Returned(TimeoutResponse)
    ensures e.NetworkError? ==> r == Threw(e.message)
    ensures e.Replied? && e.reply.status == 401 ==> r == Returned(ExternalResponse("401", map[], false))
    ensures e.Replied? && e.reply.status == 403 ==> r == Returned(ExternalResponse("403", map[], false))
    ensures e.Replied? && !IsOk(e.reply.status) && e.reply.status != 401 && e.reply.status != 403 ==>
              r == Returned(ExternalResponse(IntToString(e.reply.status),
                                             map["error" := JStr(e.reply.text.GetOr(""))], false))
    ensures e.Replied? && e.reply.status == 204 ==> r == Returned(ExternalResponse("204", map[], true))
    ensures e.Replied? && IsOk(e.reply.status) && e.reply.status != 204 && e.reply.body.Parsed? ==>
              r == Returned(e.reply.body.response)
    ensures e.Replied? && IsOk(e.reply.status) && e.reply.status != 204 && e.reply.body.Unparsable? ==>
              r == Threw(e.reply.body.message)
    ensures e.Replied? && IsOk(e.reply.status) && e.reply.status != 204 && e.reply.body.ReadAborted? ==>
              r == Returned(TimeoutResponse)
  {
    match e
    case Aborted => Returned(TimeoutResponse)
    case NetworkError(m) => Threw(m)
    case Replied(reply) =>
      if reply.status == 401 then Returned(ExternalResponse("401", map[], false))
      else if reply.status == 403 then Returned(ExternalResponse("403", map[], false))
      else if !IsOk(reply.status) then
        Returned(ExternalResponse(IntToString(reply.status), map["error" := JStr(reply.text.GetOr(""))], false))
      else if reply.status == 204 then Returned(ExternalResponse("204", map[], true))
      else match reply.body
        case Parsed(response) => Returned(response)
        case Unparsable(m) => Threw(m)
        case ReadAborted => Returned(TimeoutResponse)
  }

  /**
   * Every non-2xx status, 401 and 403 included, resolves to a failure whose code
   * is the status written in decimal, so reading the code back gives the status.
   */
  lemma FailureCodeIsStatus(reply: HttpReply)
    requires !IsOk(reply.status)
    ensures Classify(Replied(reply)).Returned?
    ensures !Classify(Replied(reply)).response.success
    ensures Classify(Replied(reply)).response.code == IntToString(reply.status)
    ensures ToNumber(Classify(Replied(reply)).response.code) == Int(reply.status)
  {
    KnownStatusText(reply.status);
    IntToStringRoundTrip(reply.status);
  }

  /** The fixed codes of 401 and 403 are those statuses in decimal. */
  lemma KnownStatusText(status: int)
    ensures status == 401 ==> IntToString(status) == "401"
    ensures status == 403 ==> IntToString(status) == "403"
  {
    assert NatToString(4) == "4" && NatToString(40) == "40" && NatToString(0) == "0";
    assert NatToString(1) == "1" && NatToString(3) == "3";
    assert IntToString(401) == "401";
    assert IntToString(403) == "403";
  }

  /** A 2xx reply never produces a failure code of its own: 204 succeeds, the rest pass the body on. */
  lemma OkRepliesPassBodyThrough(reply: HttpReply, response: ExternalResponse)
    requires IsOk(reply.status) && reply.status != 204 && reply.body == Parsed(response)
    ensures Classify(Replied(reply)) == Returned(response)
  {
  }

  /** The code `TIMEOUT` comes only from an abort, whether during the request or while reading the body. */
  lemma TimeoutOnlyFromAbort(e: FetchEvent)
    requires Classify(e) == Returned(TimeoutResponse)
    ensures e.Aborted? || (e.Replied? && IsOk(e.reply.status) && e.reply.status != 204
                           && (e.reply.body.ReadAborted? || e.reply.body == Parsed(TimeoutResponse)))
  {
  }

  // ---------------------------------------------------------------------------
  // Query strings

  /** One entry of the parameter record: a key and its value, `None` for undefined or null. */
  type Param = (string, Option<string>)

  /** An entry survives when its value is neither undefined, null nor `''`. */
  predicate Kept(p: Param) {
    p.1.Some? && p.1.value != ""
  }

  /** The entries that survive, in their original order. */
  function KeptPairs(params: seq<Param>): (r: seq<(string, string)>)
    ensures |r| <= |params|
    ensures forall q :: q in r ==> q.1 != "" && (q.0, Some(q.1)) in params
    ensures forall i :: 0 <= i < |params| && Kept(params[i]) ==> (params[i].0, params[i].1.value) in r
  {
    if params == [] then []
    else
      var rest := KeptPairs(params[1..]);
      assert forall i :: 1 <= i < |params| ==> params[i] == params[1..][i - 1];
      if Kept(params[0]) then [(params[0].0, params[0].1.value)] + rest else rest
  }

  lemma {:induction false} KeptPairsAppend(params: seq<Param>, p: Param)
    ensures KeptPairs(params + [p]) == KeptPairs(params) + (if Kept(p) then [(p.0, p.1.value)] else [])
  {
    if params == [] {
      assert params + [p] == [p];
    } else {
      assert (params + [p])[1..] == params[1..] + [p];
      KeptPairsAppend(params[1..], p);
    }
  }

  predicate DistinctKeys(params: seq<Param>) {
    forall i, j :: 0 <= i < j < |params| ==> params[i].0 != params[j].0
  }

  /** The record `{ keys[0]: values[0], ... }`. */
  function Zip(keys: seq<string>, values: seq<Option<string>>): (params: seq<Param>)
    requires |keys| == |values|
    ensures |params| == |keys| && forall i :: 0 <= i < |keys| ==> params[i] == (keys[i], values[i])
  {
    seq(|keys|, i requires 0 <= i < |keys| => (keys[i], values[i]))
  }

  predicate DistinctStrings(ks: seq<string>) {
    forall i, j :: 0 <= i < j < |ks| ==> ks[i] != ks[j]
  }

  /** In a record with distinct keys, the value sent under a key is its non-empty value. */
  lemma LookupZip(keys: seq<string>, values: seq<Option<string>>, i: nat)
    requires |keys| == |values| && DistinctStrings(keys) && i < |keys|
    ensures Lookup(KeptPairs(Zip(keys, values)), keys[i])
            == (if values[i].Some? && values[i].value != "" then values[i] else None)
  {
    ZipDistinct(keys, values);
    LookupKept(Zip(keys, values), i);
  }

  /** A record built from distinct keys has distinct keys. */
  lemma ZipDistinct(keys: seq<string>, values: seq<Option<string>>)
    requires |keys| == |values| && DistinctStrings(keys)
    ensures DistinctKeys(Zip(keys, values))
  {
  }

  predicate HasKey(pairs: seq<(string, string)>, k: string) {
    exists i :: 0 <= i < |pairs| && pairs[i].0 == k
  }

  /** The value under `k` in a serialized pair list, if any. */
  function Lookup(pairs: seq<(string, string)>, k: string): (r: Option<string>)
    ensures r.None? <==> !HasKey(pairs, k)
    ensures r.Some? ==> (k, r.value) in pairs
  {
    if pairs == [] then None
    else if pairs[0].0 == k then Some(pairs[0].1)
    else
      var r := Lookup(pairs[1..], k);
      assert HasKey(pairs, k) ==> pairs[0].0 == k || HasKey(pairs[1..], k) by {
        if HasKey(pairs, k) {
          var i :| 0 <= i < |pairs| && pairs[i].0 == k;
          if i > 0 { assert pairs[1..][i - 1].0 == k; }
        }
      }
      r
  }

  /** `URLSearchParams.set`: replace the first entry under `k` and drop the others, or append. */
  function SetParam(pairs: seq<(string, string)>, k: string, v: string): seq<(string, string)> {
    if HasKey(pairs, k) then ReplaceFirst(pairs, k, v) else pairs + [(k, v)]
  }

  function ReplaceFirst(pairs: seq<(string, string)>, k: string, v: string): seq<(string, string)> {
    if pairs == [] then []
    else if pairs[0].0 == k then [(k, v)] + RemoveKey(pairs[1..], k)
    else [pairs[0]] + ReplaceFirst(pairs[1..], k, v)
  }

  function RemoveKey(pairs: seq<(string, string)>, k: string): seq<(string, string)> {
    if pairs == [] then []
    else (if pairs[0].0 == k then [] else [pairs[0]]) + RemoveKey(pairs[1..], k)
  }

  /** One serialized pair, `k=v`, both sides form-encoded. */
  function Segment(p: (string, string)): (t: string)
    ensures '&' !in t
  {
    var k, v := FormEncode(p.0), FormEncode(p.1);
    EncodedHasNoDelimiters(k);
    EncodedHasNoDelimiters(v);
    k + "=" + v
  }

  /** The serialized pairs, one segment each, in order. */
  function Segments(pairs: seq<(string, string)>): (ss: seq<string>)
    ensures |ss| == |pairs| && forall i :: 0 <= i < |pairs| ==> ss[i] == Segment(pairs[i])
  {
    seq(|pairs|, i requires 0 <= i < |pairs| => Segment(pairs[i]))
  }

  /** `URLSearchParams.toString()`: `k=v` pairs, form-encoded, joined by `&`. */
  function Serialize(pairs: seq<(string, string)>): (t: string)
    ensures pairs == [] <==> t == ""
  {
    if pairs == [] then ""
    else
      var head := Segment(pairs[0]);
      assert head[|FormEncode(pairs[0].0)|] == '=';
      if |pairs| == 1 then head else head + "&" + Serialize(pairs[1..])
  }

  /** Serializing is joining the pair segments with `&`. */
  lemma {:induction false} SerializeIsJoin(pairs: seq<(string, string)>)
    requires pairs != []
    ensures Serialize(pairs) == Join(Segments(pairs), '&')
  {
    if |pairs| > 1 {
      SerializeIsJoin(pairs[1..]);
      assert Segments(pairs)[1..] == Segments(pairs[1..]);
    }
  }

  /**
   * A serialized query splits on `&` back into exactly one segment per pair, in
   * order: no key or value can add or break a parameter.
   */
  lemma SerializeSplits(pairs: seq<(string, string)>)
    requires pairs != []
    ensures Split(Serialize(pairs), '&') == Segments(pairs)
  {
    SerializeIsJoin(pairs);
    JoinSplit(Segments(pairs), '&');
  }

  /** `buildQueryString`'s result: `''` when nothing survives, else `?` and the serialized pairs. */
  function QueryString(params: seq<Param>): (qs: string)
    ensures qs == "" <==> forall i :: 0 <= i < |params| ==> !Kept(params[i])
    ensures qs != "" ==> qs[0] == '?'
  {
    var kept := KeptPairs(params);
    if kept == [] then ""
    else
      assert forall i :: 0 <= i < |params| ==> !Kept(params[i]) ==> true;
      "?" + Serialize(kept)
  }

  /** The query string carries one `&`-separated segment per surviving entry, in order. */
  lemma QuerySegments(params: seq<Param>)
    requires QueryString(params) != ""
    ensures Split(QueryString(params)[1..], '&') == Segments(KeptPairs(params))
  {
    assert QueryString(params)[1..] == Serialize(KeptPairs(params));
    SerializeSplits(KeptPairs(params));
  }

  /**
   * `buildQueryString`: feeds the surviving entries one by one into a
   * `URLSearchParams` builder, then serializes it.
   */
  method BuildQueryString(params: seq<Param>) returns (qs: string)
    requires DistinctKeys(params)
    ensures qs == QueryString(params)
  {
    var builder: seq<(string, string)> := [];
    var i := 0;
    while i < |params|
      invariant 0 <= i <= |params|
      invariant builder == KeptPairs(params[..i])
    {
      var (key, value) := params[i];
      if value.Some? && value.value != "" {
        NewKeyIsAbsent(params, i);
        builder := SetParam(builder, key, value.value);
      }
      KeptPairsAppend(params[..i], params[i]);
      assert params[..i + 1] == params[..i] + [params[i]];
      i := i + 1;
    }
    assert params[..i] == params;
    var text := Serialize(builder);
    qs := if text != "" then "?" + text else "";
  }

  /**
   * Reading a key back from the surviving pairs: an entry's value is found
   * exactly when it survives, and no other entry's value is.
   */
  lemma LookupKept(params: seq<Param>, i: nat)
    requires DistinctKeys(params) && i < |params|
    ensures Lookup(KeptPairs(params), params[i].0) == (if Kept(params[i]) then Some(params[i].1.value) else None)
  {
    var kept := KeptPairs(params);
    var k := params[i].0;
    var r := Lookup(kept, k);
    if r.Some? {
      assert (k, Some(r.value)) in params;
    }
  }

  /** Under distinct keys, the next entry's key is not yet in the builder. */
  lemma NewKeyIsAbsent(params: seq<Param>, i: nat)
    requires DistinctKeys(params) && i < |params|
    ensures !HasKey(KeptPairs(params[..i]), params[i].0)
  {
  }

  // ---------------------------------------------------------------------------
  // Error messages

  const MessageUnauthorized := "인증 정보가 유효하지 않습니다. 토큰을 확인해주세요."
  const MessageForbidden := "접근 권한이 없습니다."
  const MessageTimeout := "요청 시간이 초과되었습니다. 다시 시도해주세요."
  const FailurePrefix := "요청 처리에 실패했습니다. (코드: "

  /** `getErrorMessage`: fixed texts for 401, 403 and TIMEOUT, a text embedding the code otherwise. */
  function GetErrorMessage(code: string): (msg: string)
    ensures code == "401" ==> msg == MessageUnauthorized
    ensures code == "403" ==> msg == MessageForbidden
    ensures code == "TIMEOUT" ==> msg == MessageTimeout
    ensures code != "401" && code != "403" && code != "TIMEOUT" ==>
              msg == FailurePrefix + code + ")"
  {
    if code == "401" then MessageUnauthorized
    else if code == "403" then MessageForbidden
    else if code == "TIMEOUT" then MessageTimeout
    else FailurePrefix + code + ")"
  }

  /** Different codes give different messages, so the message identifies the code. */
  lemma ErrorMessageInjective(a: string, b: string)
    requires GetErrorMessage(a) == GetErrorMessage(b)
    ensures a == b
  {
    var m := GetErrorMessage(a);
    var generic := a != "401" && a != "403" && a != "TIMEOUT";
    var genericB := b != "401" && b != "403" && b != "TIMEOUT";
    if generic {
      assert m[0] == FailurePrefix[0] && m[3] == FailurePrefix[3];
    }
    if genericB {
      assert m[0] == FailurePrefix[0] && m[3] == FailurePrefix[3];
    }
    if generic && genericB {
      assert a == m[|FailurePrefix|..|m| - 1] == b;
    }
  }
}
