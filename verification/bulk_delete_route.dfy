/**
 * `POST /api/oss-versions/bulk-delete`
 * (src/app/api/oss-versions/bulk-delete/route.ts): validates the id list, sends
 * one DELETE per entry and reports how many succeeded and failed.
 *
 * The per-id tasks run concurrently in the source; here they run one after the
 * other, and what the upstream answered to the DELETE at position `i` is `del(i)`.
 */
module BulkDeleteRoute {
  import opened JsCore
  import opened Types
  import opened ExternalApi
  import opened RouteCommon

  const CrashPrefix := "일괄 삭제 처리 실패: "

  /** One id's task: a single DELETE, fulfilled exactly when the upstream reports success. */
  function DeleteOne(token: string, id: Json, del: Upstream): (r: ItemRun)
    ensures r.calls == [Call(DELETE, VersionPath(id), token, None)]
    ensures r.ok <==> del.Succeeded()
  {
    ItemRun([Call(DELETE, VersionPath(id), token, None)], del.Succeeded())
  }

  /** `versionIds.map(...)`, run as a sequential pass. */
  function DeleteAll(token: string, ids: seq<Json>, del: nat -> Upstream): (runs: seq<ItemRun>)
    ensures |runs| == |ids|
    ensures forall i :: 0 <= i < |ids| ==> runs[i] == DeleteOne(token, ids[i], del(i))
  {
    seq(|ids|, i requires 0 <= i < |ids| => DeleteOne(token, ids[i], del(i)))
  }

  /** The route handler. */
  function Post(token: Option<string>, body: RequestBody, del: nat -> Upstream): (x: Exchange)
    ensures !HasToken(token) ==> x == Exchange([], Unauthenticated)
    ensures HasToken(token) && body.BadJson? ==> x == Exchange([], Crashed(CrashPrefix, body.message))
    ensures HasToken(token) && body == JsonBody(JNull) ==> x == Exchange([], Crashed(CrashPrefix, NullBody))
    ensures HasToken(token) && body.JsonBody? && body.value != JNull
            && IdList(Destructure(body.value, "versionIds").value).None? ==>
              x == Exchange([], Failure(400, MissingIds))
    ensures HasToken(token) && body.JsonBody? && body.value != JNull
            && IdList(Destructure(body.value, "versionIds").value).Some? ==>
              var runs := DeleteAll(token.value, IdList(Destructure(body.value, "versionIds").value).value, del);
              x == Exchange(AllCalls(runs), SuccessReply(BulkBody(Tally(Outcomes(runs))), None))
  {
    if !HasToken(token) then Exchange([], Unauthenticated)
    else
      match body
      case BadJson(message) => Exchange([], Crashed(CrashPrefix, message))
      case JsonBody(value) =>
        match Destructure(value, "versionIds")
        case Fail(message) => Exchange([], Crashed(CrashPrefix, message))
        case Ok(versionIds) =>
          match IdList(versionIds)
          case None => Exchange([], Failure(400, MissingIds))
          case Some(ids) =>
            var runs := DeleteAll(token.value, ids, del);
            Exchange(AllCalls(runs), SuccessReply(BulkBody(Tally(Outcomes(runs))), None))
  }

  /**
   * Exactly one DELETE goes out per list entry, duplicates included, in list
   * order, each to that entry's path.
   */
  lemma {:induction false} OneDeletePerEntry(token: string, ids: seq<Json>, del: nat -> Upstream)
    ensures |AllCalls(DeleteAll(token, ids, del))| == |ids|
    ensures forall i :: 0 <= i < |ids| ==>
              AllCalls(DeleteAll(token, ids, del))[i] == Call(DELETE, VersionPath(ids[i]), token, None)
  {
    SingleCallRuns(DeleteAll(token, ids, del));
  }

  lemma {:induction false} SingleCallRuns(runs: seq<ItemRun>)
    requires forall i :: 0 <= i < |runs| ==> |runs[i].calls| == 1
    ensures |AllCalls(runs)| == |runs|
    ensures forall i :: 0 <= i < |runs| ==> AllCalls(runs)[i] == runs[i].calls[0]
  {
    if runs != [] {
      SingleCallRuns(runs[1..]);
      assert forall i :: 1 <= i < |runs| ==> runs[i] == runs[1..][i - 1];
    }
  }

  /**
   * A request with a valid id list always gets `success: true` with status 200;
   * the counters add up to the number of entries, and an entry counts as
   * succeeded exactly when its upstream result reports success.
   */
  lemma ValidRequestCounts(token: Option<string>, ids: seq<Json>, del: nat -> Upstream)
    requires HasToken(token) && ids != []
    ensures var x := Post(token, JsonBody(JObj(map["versionIds" := JArr(ids)])), del);
            Succeeded(x.reply) && x.reply.status == 200
    ensures var oks := Outcomes(DeleteAll(token.value, ids, del));
            Tally(oks).total == |ids| == Tally(oks).succeeded + Tally(oks).failed
            && forall i :: 0 <= i < |ids| ==> (oks[i] <==> del(i).Succeeded())
  {
    TallyAddsUp(Outcomes(DeleteAll(token.value, ids, del)));
  }
}
