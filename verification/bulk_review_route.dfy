/**
 * `POST /api/oss-versions/bulk-review`
 * (src/app/api/oss-versions/bulk-review/route.ts): validates the id list and
 * the target status, then for every id fetches the version and writes it back
 * with `reviewed` replaced, and reports how many ids succeeded and failed.
 *
 * The per-id tasks run concurrently in the source; here they run one after the
 * other, and what the upstream answered to the GET and to the PUT of the id at
 * position `i` is `get(i)` and `put(i)`.
 */
module BulkReviewRoute {
  import opened JsCore
  import opened Types
  import opened ExternalApi
  import opened RouteCommon

  const InvalidStatus := "리뷰 상태는 Y 또는 N이어야 합니다."
  const CrashPrefix := "일괄 리뷰 처리 실패: "

  /** `reviewed !== 'Y' && reviewed !== 'N'` rejects; the status when it passes. */
  function StatusOf(v: Option<Json>): (r: Option<ReviewStatus>)
    ensures r.Some? <==> v == Some(JStr("Y")) || v == Some(JStr("N"))
    ensures r.Some? ==> v == Some(JStr(r.value.Code()))
  {
    if v == Some(JStr("Y")) then Some(Y) else if v == Some(JStr("N")) then Some(N) else None
  }

  /** `{ ...currentVersion, reviewed }`: the fetched record with only `reviewed` replaced. */
  function WithReviewed(current: map<string, Json>, reviewed: ReviewStatus): (updated: Json)
    ensures updated.JObj? && updated.fields.Keys == current.Keys + {"reviewed"}
    ensures updated.fields["reviewed"] == JStr(reviewed.Code())
    ensures forall k :: k in current && k != "reviewed" ==> updated.fields[k] == current[k]
  {
    JObj(current["reviewed" := JStr(reviewed.Code())])
  }

  /** One id's task: GET the version; only when that succeeded, PUT it back with the new status. */
  function ReviewOne(token: string, id: Json, reviewed: ReviewStatus, get: Upstream, put: Upstream): (r: ItemRun)
    ensures 1 <= |r.calls| <= 2 && r.calls[0] == Call(GET, VersionPath(id), token, None)
    ensures |r.calls| == 2 <==> get.Succeeded()
    ensures get.Succeeded() ==>
              r.calls[1] == Call(PUT, VersionPath(id), token, Some(WithReviewed(get.response.messageList, reviewed)))
    ensures r.ok <==> get.Succeeded() && put.Succeeded()
  {
    var fetch := Call(GET, VersionPath(id), token, None);
    if !get.Succeeded() then ItemRun([fetch], false)
    else
      var store := Call(PUT, VersionPath(id), token, Some(WithReviewed(get.response.messageList, reviewed)));
      ItemRun([fetch, store], put.Succeeded())
  }

  /** `versionIds.map(...)`, run as a sequential pass. */
  function ReviewAll(token: string, ids: seq<Json>, reviewed: ReviewStatus,
                     get: nat -> Upstream, put: nat -> Upstream): (runs: seq<ItemRun>)
    ensures |runs| == |ids|
    ensures forall i :: 0 <= i < |ids| ==> runs[i] == ReviewOne(token, ids[i], reviewed, get(i), put(i))
  {
    seq(|ids|, i requires 0 <= i < |ids| => ReviewOne(token, ids[i], reviewed, get(i), put(i)))
  }

  /** What the request asks for once it passed validation, or the reply that rejects it. */
  datatype Checked = Rejected(reply: Reply) | Accepted(ids: seq<Json>, reviewed: ReviewStatus)

  /** Reads the body and validates it: first the id list, then the status. */
  function Check(body: RequestBody): (c: Checked)
    ensures body.BadJson? ==> c == Rejected(Crashed(CrashPrefix, body.message))
    ensures body == JsonBody(JNull) ==> c == Rejected(Crashed(CrashPrefix, NullBody))
    ensures body.JsonBody? && body.value != JNull
            && IdList(Destructure(body.value, "versionIds").value).None? ==>
              c == Rejected(Failure(400, MissingIds))
    ensures body.JsonBody? && body.value != JNull
            && IdList(Destructure(body.value, "versionIds").value).Some?
            && StatusOf(Destructure(body.value, "reviewed").value).None? ==>
              c == Rejected(Failure(400, InvalidStatus))
    ensures body.JsonBody? && body.value != JNull
            && IdList(Destructure(body.value, "versionIds").value).Some?
            && StatusOf(Destructure(body.value, "reviewed").value).Some? ==>
              c == Accepted(IdList(Destructure(body.value, "versionIds").value).value,
                            StatusOf(Destructure(body.value, "reviewed").value).value)
    ensures c.Accepted? ==> c.ids != []
  {
    match body
    case BadJson(message) => Rejected(Crashed(CrashPrefix, message))
    case JsonBody(value) =>
      match Destructure(value, "versionIds")
      case Fail(message) => Rejected(Crashed(CrashPrefix, message))
      case Ok(versionIds) =>
        match IdList(versionIds)
        case None => Rejected(Failure(400, MissingIds))
        case Some(ids) =>
          match StatusOf(Destructure(value, "reviewed").value)
          case None => Rejected(Failure(400, InvalidStatus))
          case Some(reviewed) => Accepted(ids, reviewed)
  }

  /** The route handler. */
  function Post(token: Option<string>, body: RequestBody, get: nat -> Upstream, put: nat -> Upstream): (x: Exchange)
    ensures !HasToken(token) ==> x == Exchange([], Unauthenticated)
    ensures HasToken(token) && Check(body).Rejected? ==> x == Exchange([], Check(body).reply)
    ensures HasToken(token) && Check(body).Accepted? ==>
              var c := Check(body);
              var runs := ReviewAll(token.value, c.ids, c.reviewed, get, put);
              x == Exchange(AllCalls(runs), SuccessReply(BulkBody(Tally(Outcomes(runs))), None))
  {
    if !HasToken(token) then Exchange([], Unauthenticated)
    else
      match Check(body)
      case Rejected(reply) => Exchange([], reply)
      case Accepted(ids, reviewed) =>
        var runs := ReviewAll(token.value, ids, reviewed, get, put);
        Exchange(AllCalls(runs), SuccessReply(BulkBody(Tally(Outcomes(runs))), None))
  }

  /**
   * A request that passes validation always gets `success: true` with status
   * 200, however many ids failed; the counters add up to the number of ids, and
   * an id counts as succeeded exactly when both its GET and its PUT succeeded.
   */
  lemma AcceptedAlwaysSucceeds(token: Option<string>, body: RequestBody, get: nat -> Upstream, put: nat -> Upstream)
    requires HasToken(token) && Check(body).Accepted?
    ensures Succeeded(Post(token, body, get, put).reply) && Post(token, body, get, put).reply.status == 200
    ensures var c := Check(body);
            var oks := Outcomes(ReviewAll(token.value, c.ids, c.reviewed, get, put));
            Tally(oks).total == |c.ids| == Tally(oks).succeeded + Tally(oks).failed
            && forall i :: 0 <= i < |c.ids| ==> (oks[i] <==> get(i).Succeeded() && put(i).Succeeded())
  {
    var c := Check(body);
    TallyAddsUp(Outcomes(ReviewAll(token.value, c.ids, c.reviewed, get, put)));
  }

  /**
   * Every id gets exactly one GET; a PUT follows exactly for the ids whose GET
   * succeeded. So the request makes as many calls as there are ids plus as many
   * as there were successful GETs.
   */
  lemma {:induction false} CallCount(token: string, ids: seq<Json>, reviewed: ReviewStatus,
                                     get: nat -> Upstream, put: nat -> Upstream)
    ensures |AllCalls(ReviewAll(token, ids, reviewed, get, put))|
            == |ids| + CountWhere(seq(|ids|, i requires 0 <= i < |ids| => get(i).Succeeded()), true)
  {
    var runs := ReviewAll(token, ids, reviewed, get, put);
    RunsCallCount(runs);
    assert seq(|runs|, i requires 0 <= i < |runs| => |runs[i].calls| == 2)
        == seq(|ids|, i requires 0 <= i < |ids| => get(i).Succeeded());
  }

  lemma {:induction false} RunsCallCount(runs: seq<ItemRun>)
    requires forall i :: 0 <= i < |runs| ==> 1 <= |runs[i].calls| <= 2
    ensures |AllCalls(runs)| == |runs| + CountWhere(seq(|runs|, i requires 0 <= i < |runs| => |runs[i].calls| == 2), true)
  {
    if runs != [] {
      RunsCallCount(runs[1..]);
      assert seq(|runs|, i requires 0 <= i < |runs| => |runs[i].calls| == 2)[1..]
          == seq(|runs[1..]|, i requires 0 <= i < |runs[1..]| => |runs[1..][i].calls| == 2);
    }
  }

  /**
   * Each id's outcome depends only on what the upstream answered for that id:
   * changing the answers for the other ids does not change it.
   */
  lemma OutcomeIsPerId(token: string, ids: seq<Json>, reviewed: ReviewStatus,
                       get: nat -> Upstream, put: nat -> Upstream,
                       get2: nat -> Upstream, put2: nat -> Upstream, i: nat)
    requires i < |ids| && get(i) == get2(i) && put(i) == put2(i)
    ensures ReviewAll(token, ids, reviewed, get, put)[i] == ReviewAll(token, ids, reviewed, get2, put2)[i]
  {
  }
}
